/**
 * The filesystem reconciler of src/kisiac/filesystems.py: the devices `blkid`
 * reports, which device a filesystem addresses, which `mkfs` commands to run,
 * which fstab entries change, and the confirmed update that formats and then
 * rewrites the table.
 */
module Filesystems {
  import opened Wrappers
  import opened Orders
  import opened Config
  import opened Update

  /** A block device as `blkid` reports it. */
  datatype DeviceInfo = DeviceInfo(device: string, fstype: Option<string>, labelName: Option<string>, uuid: Option<string>)

  /** Whether the device is the one the filesystem addresses, trying device, label and uuid in turn. */
  predicate IsTargetedBy(info: DeviceInfo, f: Filesystem) {
    if f.device.Some? then info.device == f.device.value
    else if f.labelName.Some? then info.labelName == f.labelName
    else if f.uuid.Some? then info.uuid == f.uuid
    else false
  }

  /** For a valid filesystem, the device matches exactly on the one key the filesystem has. */
  lemma TargetedByKey(info: DeviceInfo, f: Filesystem)
    requires f.Valid()
    ensures IsTargetedBy(info, f) <==>
      || (f.device.Some? && info.device == f.device.value)
      || (f.labelName.Some? && info.labelName == f.labelName)
      || (f.uuid.Some? && info.uuid == f.uuid)
  {
  }

  /** The first device, in probe order, that the filesystem targets. */
  function FirstTargeted(infos: seq<DeviceInfo>, f: Filesystem): (r: Option<DeviceInfo>)
    ensures r.None? <==> forall i :: 0 <= i < |infos| ==> !IsTargetedBy(infos[i], f)
    ensures r.Some? ==> exists i :: (0 <= i < |infos| && infos[i] == r.value && IsTargetedBy(infos[i], f)
      && forall j :: 0 <= j < i ==> !IsTargetedBy(infos[j], f))
  {
    if infos == [] then None
    else if IsTargetedBy(infos[0], f) then Some(infos[0])
    else
      var r := FirstTargeted(infos[1..], f);
      assert forall i :: 0 < i < |infos| ==> infos[i] == infos[1..][i - 1];
      if r.Some? then
        var i :| (0 <= i < |infos[1..]| && infos[1..][i] == r.value && IsTargetedBy(infos[1..][i], f)
          && forall j :: 0 <= j < i ==> !IsTargetedBy(infos[1..][j], f));
        assert forall j :: 0 <= j < i + 1 ==> !IsTargetedBy(infos[j], f) by {
          forall j | 0 <= j < i + 1 ensures !IsTargetedBy(infos[j], f) {
            if j > 0 { assert infos[j] == infos[1..][j - 1]; }
          }
        }
        assert infos[i + 1] == r.value;
        r
      else r
  }

  /** `DeviceInfos.get_info`: a scan that returns the first targeted device. */
  method GetInfo(infos: seq<DeviceInfo>, f: Filesystem) returns (r: Option<DeviceInfo>)
    ensures r == FirstTargeted(infos, f)
  {
    for i := 0 to |infos|
      invariant forall j :: 0 <= j < i ==> !IsTargetedBy(infos[j], f)
    {
      if IsTargetedBy(infos[i], f) {
        return Some(infos[i]);
      }
    }
    return None;
  }

  // The attribute pattern [A-Z]+="\S+" of `blkid_attrs_re`, scanned the way `findall` does.

  predicate IsUpper(c: char) { 'A' <= c <= 'Z' }

  /** The characters Python's `\s` matches in a text pattern. */
  predicate IsSpace(c: char) {
    || c == ' ' || '\t' <= c <= '\r' || '\U{1C}' <= c <= '\U{1F}' || c == '\U{85}' || c == '\U{A0}'
    || c == '\U{1680}' || '\U{2000}' <= c <= '\U{200A}' || c == '\U{2028}' || c == '\U{2029}'
    || c == '\U{202F}' || c == '\U{205F}' || c == '\U{3000}'
  }

  /** Length of the run of upper-case letters that starts `s`. */
  function UpperRun(s: string): (n: nat)
    ensures n <= |s| && (forall i :: 0 <= i < n ==> IsUpper(s[i])) && (n < |s| ==> !IsUpper(s[n]))
  {
    if s != [] && IsUpper(s[0]) then 1 + UpperRun(s[1..]) else 0
  }

  /** Length of the run of non-whitespace characters that starts `s`. */
  function NonSpaceRun(s: string): (n: nat)
    ensures n <= |s| && (forall i :: 0 <= i < n ==> !IsSpace(s[i])) && (n < |s| ==> IsSpace(s[n]))
  {
    if s != [] && !IsSpace(s[0]) then 1 + NonSpaceRun(s[1..]) else 0
  }

  /** The last quote in `s[1..n]`: where a greedy `\S+"` that backtracks stops. */
  function LastQuote(s: string, n: nat): (r: Option<nat>)
    requires n <= |s|
    ensures r.Some? ==> 1 <= r.value < n && s[r.value] == '"' && forall q :: r.value < q < n ==> s[q] != '"'
    ensures r.None? ==> forall q :: 1 <= q < n ==> s[q] != '"'
  {
    if n <= 1 then None
    else if s[n - 1] == '"' then Some(n - 1)
    else LastQuote(s, n - 1)
  }

  /** An attribute name and a value the pattern captures. */
  predicate IsAttrName(k: string) { |k| > 0 && forall i :: 0 <= i < |k| ==> IsUpper(k[i]) }
  predicate IsAttrValue(v: string) { |v| > 0 && forall i :: 0 <= i < |v| ==> !IsSpace(v[i]) }

  datatype Match = Match(attr: string, value: string, end: nat)

  /** The match of the attribute pattern that starts at the front of `s`, if any. */
  function MatchHere(s: string): (r: Option<Match>)
    ensures r.Some? ==> (0 < r.value.end <= |s| && IsAttrName(r.value.attr) && IsAttrValue(r.value.value)
      && s[..r.value.end] == r.value.attr + "=\"" + r.value.value + "\"")
  {
    var k := UpperRun(s);
    if k == 0 || k + 2 > |s| || s[k] != '=' || s[k + 1] != '"' then None
    else
      var t := s[k + 2..];
      match LastQuote(t, NonSpaceRun(t))
      case None => None
      case Some(q) =>
        assert s[..k + 2 + q + 1] == s[..k] + "=\"" + t[..q] + "\"";
        Some(Match(s[..k], t[..q], k + 2 + q + 1))
  }

  /** `findall`: the (attribute, value) pairs of the non-overlapping matches, left to right. */
  function FindAttrs(s: string): (r: seq<(string, string)>)
    ensures forall i :: 0 <= i < |r| ==> IsAttrName(r[i].0) && IsAttrValue(r[i].1)
    decreases |s|
  {
    if s == [] then []
    else match MatchHere(s)
      case Some(m) => [(m.attr, m.value)] + FindAttrs(s[m.end..])
      case None => FindAttrs(s[1..])
  }

  /** `dict(...).get(key)` on the pairs: the value of the last pair with that key. */
  function LastValue(pairs: seq<(string, string)>, key: string): (r: Option<string>)
    ensures r.None? <==> forall i :: 0 <= i < |pairs| ==> pairs[i].0 != key
    ensures r.Some? ==> exists i :: (0 <= i < |pairs| && pairs[i] == (key, r.value)
      && forall j :: i < j < |pairs| ==> pairs[j].0 != key)
  {
    if pairs == [] then None
    else if pairs[|pairs| - 1].0 == key then Some(pairs[|pairs| - 1].1)
    else
      var r := LastValue(pairs[..|pairs| - 1], key);
      LastValueSkip(pairs, key, r);
      r
  }

  /** A last pair with another key leaves the answer of the earlier pairs standing. */
  lemma LastValueSkip(pairs: seq<(string, string)>, key: string, r: Option<string>)
    requires pairs != [] && pairs[|pairs| - 1].0 != key
    requires var init := pairs[..|pairs| - 1];
      (r.None? <==> forall i :: 0 <= i < |init| ==> init[i].0 != key)
      && (r.Some? ==> exists i :: (0 <= i < |init| && init[i] == (key, r.value)
        && forall j :: i < j < |init| ==> init[j].0 != key))
    ensures r.None? <==> forall i :: 0 <= i < |pairs| ==> pairs[i].0 != key
    ensures r.Some? ==> exists i :: (0 <= i < |pairs| && pairs[i] == (key, r.value)
      && forall j :: i < j < |pairs| ==> pairs[j].0 != key)
  {
    var init := pairs[..|pairs| - 1];
    if r.Some? {
      var i :| (0 <= i < |init| && init[i] == (key, r.value)
        && forall j :: i < j < |init| ==> init[j].0 != key);
      assert pairs[i] == (key, r.value);
    } else {
      forall i | 0 <= i < |pairs| ensures pairs[i].0 != key {
        if i < |init| { assert pairs[i] == init[i]; }
      }
    }
  }

  /** The position of the first ':' in `s`, if any. */
  function FirstColon(s: string): (r: Option<nat>)
    ensures r.None? <==> ':' !in s
    ensures r.Some? ==> r.value < |s| && s[r.value] == ':' && ':' !in s[..r.value]
  {
    if s == [] then None
    else if s[0] == ':' then Some(0)
    else match FirstColon(s[1..])
      case None => None
      case Some(i) => assert s[..i + 1] == [s[0]] + s[1..][..i]; Some(i + 1)
  }

  datatype BlkidError =
    | MissingColon(line: string)  // unpacking `split(":", maxsplit=1)` raises ValueError
    | MatchHasNoGroup             // a `findall` tuple has no `group`: AttributeError

  /** One line of `blkid` output read as evidently intended: attributes taken from the matches. */
  function ParseBlkidLine(line: string): (r: Result<DeviceInfo, BlkidError>)
    ensures r.Err? <==> ':' !in line
  {
    match FirstColon(line)
    case None => Err(MissingColon(line))
    case Some(c) =>
      var attrs := FindAttrs(line[c + 1..]);
      Ok(DeviceInfo(line[..c], LastValue(attrs, "TYPE"), LastValue(attrs, "LABEL"), LastValue(attrs, "UUID")))
  }

  /** One line of `blkid` output read as written: `findall` yields tuples, and `.group` on one raises. */
  function ParseBlkidLineAsWritten(line: string): Result<DeviceInfo, BlkidError> {
    match FirstColon(line)
    case None => Err(MissingColon(line))
    case Some(c) =>
      if FindAttrs(line[c + 1..]) != [] then Err(MatchHasNoGroup)
      else Ok(DeviceInfo(line[..c], None, None, None))
  }

  // How `blkid` prints a device, to state what reading it back gives.

  function RenderAttr(key: string, v: Option<string>): string {
    if v.Some? then " " + key + "=\"" + v.value + "\"" else ""
  }

  function Render(info: DeviceInfo): string {
    info.device + ":" + (RenderAttr("LABEL", info.labelName) + (RenderAttr("UUID", info.uuid) + RenderAttr("TYPE", info.fstype)))
  }

  predicate PrintableValue(v: Option<string>) { v.Some? ==> IsAttrValue(v.value) && '"' !in v.value }

  /** A device `blkid` can print unambiguously: no ':' in its path, values without blanks or quotes. */
  predicate Printable(info: DeviceInfo) {
    ':' !in info.device && PrintableValue(info.fstype) && PrintableValue(info.labelName) && PrintableValue(info.uuid)
  }

  lemma UpperRunOf(k: string, x: string)
    requires IsAttrName(k) && (x == [] || !IsUpper(x[0]))
    ensures UpperRun(k + x) == |k|
  {
    var s := k + x;
    assert forall i :: 0 <= i < |k| ==> s[i] == k[i];
    assert |k| < |s| ==> s[|k|] == x[0];
  }

  lemma NonSpaceRunOf(v: string, x: string)
    requires IsAttrValue(v) && (x == [] || IsSpace(x[0]))
    ensures NonSpaceRun(v + x) == |v|
  {
    var s := v + x;
    assert forall i :: 0 <= i < |v| ==> s[i] == v[i];
    assert |v| < |s| ==> s[|v|] == x[0];
  }

  /** A quoted value followed by a blank or the end: `\S+"` stops at its closing quote. */
  lemma QuotedValue(v: string, tail: string)
    requires IsAttrValue(v) && '"' !in v && (tail == [] || IsSpace(tail[0]))
    ensures var t := v + "\"" + tail;
      NonSpaceRun(t) == |v| + 1 && LastQuote(t, |v| + 1) == Some(|v|) && t[..|v|] == v
  {
    var t := v + "\"" + tail;
    var vq := v + "\"";
    assert IsAttrValue(vq) by { assert forall i :: 0 <= i < |v| ==> vq[i] == v[i]; }
    assert t == vq + tail;
    NonSpaceRunOf(vq, tail);
    assert t[|v|] == '"';
    assert t[..|v|] == v;
  }

  /** An attribute name followed by `="` is matched up to the `"`. */
  lemma NameThenQuote(k: string, t: string)
    requires IsAttrName(k)
    ensures var s := k + ("=\"" + t);
      UpperRun(s) == |k| && s[|k|] == '=' && s[|k| + 1] == '"' && s[..|k|] == k && s[|k| + 2..] == t
  {
    UpperRunOf(k, "=\"" + t);
  }

  lemma MatchAttr(k: string, v: string, tail: string)
    requires IsAttrName(k) && IsAttrValue(v) && '"' !in v && (tail == [] || IsSpace(tail[0]))
    ensures MatchHere(k + "=\"" + v + "\"" + tail) == Some(Match(k, v, |k| + |v| + 3))
  {
    var t := v + "\"" + tail;
    assert k + "=\"" + v + "\"" + tail == k + ("=\"" + t);
    NameThenQuote(k, t);
    QuotedValue(v, tail);
  }

  /** A leading blank is skipped. */
  lemma FindAttrsSpace(body: string)
    ensures FindAttrs(" " + body) == FindAttrs(body)
  {
    var s := " " + body;
    assert UpperRun(s) == 0 by { assert s[0] == ' '; }
    assert s[1..] == body;
  }

  /** One printed attribute is read as exactly that (attribute, value) pair. */
  lemma FindAttrsAttr(k: string, v: string, tail: string)
    requires IsAttrName(k) && IsAttrValue(v) && '"' !in v && (tail == [] || IsSpace(tail[0]))
    ensures FindAttrs(k + "=\"" + v + "\"" + tail) == [(k, v)] + FindAttrs(tail)
  {
    var body := k + "=\"" + v + "\"" + tail;
    MatchAttr(k, v, tail);
    assert body[|k| + |v| + 3..] == tail;
  }

  function AttrPair(key: string, v: Option<string>): seq<(string, string)> {
    if v.Some? then [(key, v.value)] else []
  }

  lemma FindRenderedAttr(key: string, v: Option<string>, tail: string)
    requires IsAttrName(key) && PrintableValue(v) && (tail == [] || IsSpace(tail[0]))
    ensures FindAttrs(RenderAttr(key, v) + tail) == AttrPair(key, v) + FindAttrs(tail)
    ensures RenderAttr(key, v) + tail == [] || IsSpace((RenderAttr(key, v) + tail)[0])
  {
    if v.Some? {
      var body := key + "=\"" + v.value + "\"" + tail;
      assert RenderAttr(key, v) + tail == " " + body;
      FindAttrsSpace(body);
      FindAttrsAttr(key, v.value, tail);
      assert (RenderAttr(key, v) + tail)[0] == ' ';
    } else {
      assert RenderAttr(key, v) + tail == tail;
    }
  }

  lemma FindRenderedThree(k1: string, v1: Option<string>, k2: string, v2: Option<string>, k3: string, v3: Option<string>)
    requires IsAttrName(k1) && IsAttrName(k2) && IsAttrName(k3)
    requires PrintableValue(v1) && PrintableValue(v2) && PrintableValue(v3)
    ensures FindAttrs(RenderAttr(k1, v1) + (RenderAttr(k2, v2) + RenderAttr(k3, v3)))
      == AttrPair(k1, v1) + AttrPair(k2, v2) + AttrPair(k3, v3)
  {
    var r1, r2, r3 := RenderAttr(k1, v1), RenderAttr(k2, v2), RenderAttr(k3, v3);
    FindRenderedAttr(k3, v3, []);
    assert r3 + [] == r3;
    FindRenderedAttr(k2, v2, r3);
    FindRenderedAttr(k1, v1, r2 + r3);
    AppendThree(AttrPair(k1, v1), AttrPair(k2, v2), AttrPair(k3, v3), []);
  }

  lemma AppendThree<T>(a: seq<T>, b: seq<T>, c: seq<T>, d: seq<T>)
    ensures a + (b + (c + d)) == a + b + c + d
  {
  }

  lemma BlkidKeys()
    ensures IsAttrName("LABEL") && IsAttrName("UUID") && IsAttrName("TYPE")
  {
  }

  /** The attributes of a printed device read back as the pairs it printed, in order. */
  lemma FindRenderedAttrs(info: DeviceInfo)
    requires Printable(info)
    ensures FindAttrs(RenderAttr("LABEL", info.labelName) + (RenderAttr("UUID", info.uuid) + RenderAttr("TYPE", info.fstype)))
      == AttrPair("LABEL", info.labelName) + AttrPair("UUID", info.uuid) + AttrPair("TYPE", info.fstype)
  {
    BlkidKeys();
    FindRenderedThree("LABEL", info.labelName, "UUID", info.uuid, "TYPE", info.fstype);
  }

  /** A later pair with the key overrides the earlier ones. */
  lemma {:induction false} LastValueAppend(a: seq<(string, string)>, b: seq<(string, string)>, key: string)
    ensures LastValue(a + b, key) == if LastValue(b, key).Some? then LastValue(b, key) else LastValue(a, key)
    decreases |b|
  {
    if b == [] {
      assert a + b == a;
    } else {
      var ab := a + b;
      var init := b[..|b| - 1];
      assert ab[..|ab| - 1] == a + init;
      assert ab[|ab| - 1] == b[|b| - 1];
      if b[|b| - 1].0 == key {
        assert LastValue(ab, key) == Some(b[|b| - 1].1) == LastValue(b, key);
      } else {
        assert LastValue(ab, key) == LastValue(a + init, key);
        assert LastValue(b, key) == LastValue(init, key);
        LastValueAppend(a, init, key);
      }
    }
  }

  lemma LastValueThree(k1: string, v1: Option<string>, k2: string, v2: Option<string>, k3: string, v3: Option<string>, key: string)
    ensures LastValue(AttrPair(k1, v1) + AttrPair(k2, v2) + AttrPair(k3, v3), key) ==
      if k3 == key && v3.Some? then v3 else if k2 == key && v2.Some? then v2 else if k1 == key then v1 else None
  {
    LastValueAppend(AttrPair(k1, v1) + AttrPair(k2, v2), AttrPair(k3, v3), key);
    LastValueAppend(AttrPair(k1, v1), AttrPair(k2, v2), key);
  }

  /** Distinct keys: each is looked up to the value printed for it. */
  lemma LookupPairs(k1: string, v1: Option<string>, k2: string, v2: Option<string>, k3: string, v3: Option<string>)
    requires k1 != k2 && k1 != k3 && k2 != k3
    ensures var ps := AttrPair(k1, v1) + AttrPair(k2, v2) + AttrPair(k3, v3);
      LastValue(ps, k1) == v1 && LastValue(ps, k2) == v2 && LastValue(ps, k3) == v3
  {
    LastValueThree(k1, v1, k2, v2, k3, v3, k1);
    LastValueThree(k1, v1, k2, v2, k3, v3, k2);
    LastValueThree(k1, v1, k2, v2, k3, v3, k3);
  }

  /** A line splits at its first ':', which is the one after the device path. */
  lemma SplitAtColon(device: string, rest: string)
    requires ':' !in device
    ensures FirstColon(device + ":" + rest) == Some(|device|)
    ensures (device + ":" + rest)[..|device|] == device && (device + ":" + rest)[|device| + 1..] == rest
  {
    var line := device + ":" + rest;
    assert line[..|device|] == device;
    assert line[|device|] == ':';
    assert line[|device| + 1..] == rest;
  }

  /**
   * Reading back a line `blkid` printed gives the same device: the corrected parser
   * inverts printing.
   */
  lemma BlkidRoundTrip(info: DeviceInfo)
    requires Printable(info)
    ensures ParseBlkidLine(Render(info)) == Ok(info)
  {
    var rest := RenderAttr("LABEL", info.labelName) + (RenderAttr("UUID", info.uuid) + RenderAttr("TYPE", info.fstype));
    SplitAtColon(info.device, rest);
    FindRenderedAttrs(info);
    LookupPairs("LABEL", info.labelName, "UUID", info.uuid, "TYPE", info.fstype);
  }

  /**
   * As written, every line that reports at least one attribute raises; the corrected
   * parser reads the same line back as the device.
   */
  lemma BlkidAsWrittenRaises(info: DeviceInfo)
    requires Printable(info)
    requires info.fstype.Some? || info.labelName.Some? || info.uuid.Some?
    ensures ParseBlkidLineAsWritten(Render(info)) == Err(MatchHasNoGroup)
    ensures ParseBlkidLine(Render(info)) == Ok(info)
  {
    BlkidRoundTrip(info);
    var rest := RenderAttr("LABEL", info.labelName) + (RenderAttr("UUID", info.uuid) + RenderAttr("TYPE", info.fstype));
    SplitAtColon(info.device, rest);
    FindRenderedAttrs(info);
  }

  /** A failing line after a first line that has its ':' is still the first failing line. */
  lemma FirstErrAfter(lines: seq<string>, e: BlkidError)
    requires |lines| > 0 && ':' in lines[0]
    requires exists k :: (0 <= k < |lines| - 1 && ParseBlkidLine(lines[1..][k]) == Err(e)
      && forall j :: 0 <= j < k ==> ':' in lines[1..][j])
    ensures exists k :: (0 <= k < |lines| && ParseBlkidLine(lines[k]) == Err(e) && forall j :: 0 <= j < k ==> ':' in lines[j])
  {
    var rest := lines[1..];
    var k :| (0 <= k < |rest| && ParseBlkidLine(rest[k]) == Err(e) && forall j :: 0 <= j < k ==> ':' in rest[j]);
    assert ParseBlkidLine(lines[k + 1]) == Err(e);
    forall j | 0 < j < k + 1 ensures ':' in lines[j] { assert lines[j] == rest[j - 1]; }
  }

  /** `blkid` output read line by line; the first line without a ':' stops the read. */
  function ParseBlkid(lines: seq<string>): (r: Result<seq<DeviceInfo>, BlkidError>)
    ensures r.Ok? <==> forall i :: 0 <= i < |lines| ==> ':' in lines[i]
    ensures r.Ok? ==> |r.value| == |lines| && forall i :: 0 <= i < |lines| ==> ParseBlkidLine(lines[i]) == Ok(r.value[i])
    ensures r.Err? ==> exists k :: (0 <= k < |lines| && ParseBlkidLine(lines[k]) == Err(r.error)
      && forall j :: 0 <= j < k ==> ':' in lines[j])
  {
    if lines == [] then Ok([])
    else
      var rest := lines[1..];
      assert forall i :: 0 < i < |lines| ==> lines[i] == rest[i - 1];
      match ParseBlkidLine(lines[0])
      case Err(e) => Err(e)
      case Ok(info) =>
        match ParseBlkid(rest)
        case Err(e) =>
          FirstErrAfter(lines, e);
          Err(e)
        case Ok(infos) => Ok([info] + infos)
  }

  lemma ParseBlkidAllOk(lines: seq<string>, infos: seq<DeviceInfo>)
    requires |infos| == |lines| && forall j :: 0 <= j < |lines| ==> ParseBlkidLine(lines[j]) == Ok(infos[j])
    ensures ParseBlkid(lines) == Ok(infos)
  {
    forall j | 0 <= j < |lines| ensures ':' in lines[j] {
      assert ParseBlkidLine(lines[j]).Ok?;
    }
    var p := ParseBlkid(lines);
    assert forall j :: 0 <= j < |infos| ==> Ok(p.value[j]) == ParseBlkidLine(lines[j]) == Ok(infos[j]);
    assert p.value == infos;
  }

  lemma ParseBlkidFirstErr(lines: seq<string>, i: nat)
    requires i < |lines| && ParseBlkidLine(lines[i]).Err?
    requires forall j :: 0 <= j < i ==> ParseBlkidLine(lines[j]).Ok?
    ensures ParseBlkid(lines) == Err(ParseBlkidLine(lines[i]).error)
  {
    var p := ParseBlkid(lines);
    var k :| (0 <= k < |lines| && ParseBlkidLine(lines[k]) == Err(p.error) && forall j :: 0 <= j < k ==> ':' in lines[j]);
    assert k == i;
  }

  /** `DeviceInfos.__init__`: one device per line of `blkid` output, in order. */
  method ReadDeviceInfos(lines: seq<string>) returns (r: Result<seq<DeviceInfo>, BlkidError>)
    ensures r == ParseBlkid(lines)
  {
    var infos: seq<DeviceInfo> := [];
    for i := 0 to |lines|
      invariant |infos| == i
      invariant forall j :: 0 <= j < i ==> ParseBlkidLine(lines[j]) == Ok(infos[j])
    {
      var parsed := ParseBlkidLine(lines[i]);
      if parsed.Err? {
        ParseBlkidFirstErr(lines, i);
        return Err(parsed.error);
      }
      infos := infos + [parsed.value];
    }
    ParseBlkidAllOk(lines, infos);
    return Ok(infos);
  }

  // Formatting: which filesystems need `mkfs`.

  /** The filesystem's device exists and does not carry the filesystem's type yet. */
  predicate NeedsMkfs(f: Filesystem, infos: seq<DeviceInfo>) {
    var info := FirstTargeted(infos, f);
    info.Some? && info.value.fstype != Some(f.fstype)
  }

  function MkfsCmd(f: Filesystem, info: DeviceInfo): Cmd {
    ["mkfs", "-t", f.fstype, info.device]
  }

  function MkfsStep(infos: seq<DeviceInfo>): Filesystem -> seq<Cmd> {
    f => if NeedsMkfs(f, infos) then [MkfsCmd(f, FirstTargeted(infos, f).value)] else []
  }

  /** The `mkfs` commands for the filesystems, visited in the given order. */
  function MkfsPlan(order: seq<Filesystem>, infos: seq<DeviceInfo>): seq<Cmd> {
    FlatMap(order, MkfsStep(infos))
  }

  /** Every element of the set, once each. */
  ghost predicate Enumerates(order: seq<Filesystem>, s: set<Filesystem>) {
    (forall x :: x in order <==> x in s) && forall i, j :: 0 <= i < j < |order| ==> order[i] != order[j]
  }

  /**
   * The plan formats exactly the filesystems whose device is found with another type,
   * on the first device they target.
   */
  lemma MkfsPlanMember(order: seq<Filesystem>, infos: seq<DeviceInfo>, cmd: Cmd)
    ensures cmd in MkfsPlan(order, infos) <==>
      exists f :: f in order && NeedsMkfs(f, infos) && cmd == MkfsCmd(f, FirstTargeted(infos, f).value)
  {
    FlatMapMember(order, MkfsStep(infos), cmd);
    if cmd in MkfsPlan(order, infos) {
      var i :| 0 <= i < |order| && cmd in MkfsStep(infos)(order[i]);
      assert order[i] in order;
    }
    forall f | f in order && NeedsMkfs(f, infos) && cmd == MkfsCmd(f, FirstTargeted(infos, f).value)
      ensures cmd in MkfsPlan(order, infos)
    {
      var i :| 0 <= i < |order| && order[i] == f;
      assert cmd in MkfsStep(infos)(order[i]);
    }
  }

  /** The loop of `update_filesystems` that collects `mkfs` commands, over the set in some order. */
  method MkfsCommands(fss: set<Filesystem>, infos: seq<DeviceInfo>) returns (cmds: seq<Cmd>, ghost order: seq<Filesystem>)
    ensures Enumerates(order, fss) && cmds == MkfsPlan(order, infos)
  {
    var remaining := fss;
    cmds, order := [], [];
    while remaining != {}
      invariant remaining <= fss
      invariant forall x :: x in order <==> x in fss && x !in remaining
      invariant forall i, j :: 0 <= i < j < |order| ==> order[i] != order[j]
      invariant cmds == MkfsPlan(order, infos)
      decreases |remaining|
    {
      var f :| f in remaining;
      var info := GetInfo(infos, f);
      if info.Some? && info.value.fstype != Some(f.fstype) {
        cmds := cmds + [MkfsCmd(f, info.value)];
      }
      FlatMapSnoc(order, f, MkfsStep(infos));
      order := order + [f];
      remaining := remaining - {f};
    }
  }

  // The fstab: which entries change, and the table that replaces it.

  /** `previous_entries`: the filesystems the current fstab describes; `from_fstab_entry` needs a device and a type. */
  function PreviousEntries(entries: seq<FstabEntry>): (r: set<Filesystem>)
    requires forall e :: e in entries ==> e.device.Some? && e.fsType.Some?
    ensures forall f :: f in r <==> exists e :: e in entries && f == FromFstabEntry(e)
    ensures forall f :: f in r ==> f.Valid()
  {
    set e | e in entries :: FromFstabEntry(e)
  }

  /** `previous_entries - unchanged_entries`: what the update will change or remove. */
  function ChangedOrRemoved(previous: set<Filesystem>, desired: set<Filesystem>): (r: set<Filesystem>)
    ensures r !! desired && r + (previous * desired) == previous
    ensures forall f :: f in r <==> f in previous && f !in desired
  {
    previous - (previous * desired)
  }

  /** The fstab written back: one entry per filesystem, in sorted order. */
  function NewFstab(fss: set<Filesystem>): (r: seq<FstabEntry>)
    ensures |r| == |fss|
    ensures forall i :: 0 <= i < |r| ==> r[i] == ToFstabEntry(SortedFilesystems(fss)[i])
  {
    var sorted := SortedFilesystems(fss);
    seq(|sorted|, i requires 0 <= i < |sorted| => ToFstabEntry(sorted[i]))
  }

  /** The same table as `to_fstab_entry` writes it. */
  function NewFstabAsWritten(fss: set<Filesystem>): (r: seq<FstabEntry>)
    ensures |r| == |fss|
    ensures forall i :: 0 <= i < |r| ==> r[i] == ToFstabEntryAsWritten(SortedFilesystems(fss)[i])
  {
    var sorted := SortedFilesystems(fss);
    seq(|sorted|, i requires 0 <= i < |sorted| => ToFstabEntryAsWritten(sorted[i]))
  }

  /** A filesystem the fstab can hold and give back. */
  predicate Storable(f: Filesystem) { f.Valid() && (f.device.Some? ==> PlainDevice(f.device.value)) }

  lemma NewFstabEntries(fss: set<Filesystem>)
    requires forall f :: f in fss ==> Storable(f)
    ensures forall i :: 0 <= i < |NewFstab(fss)| ==>
      NewFstab(fss)[i].device.Some? && NewFstab(fss)[i].fsType.Some?
      && FromFstabEntry(NewFstab(fss)[i]) == SortedFilesystems(fss)[i]
  {
    var sorted := SortedFilesystems(fss);
    var t := NewFstab(fss);
    forall i | 0 <= i < |t| ensures t[i].device.Some? && t[i].fsType.Some? && FromFstabEntry(t[i]) == sorted[i] {
      assert sorted[i] in fss && Storable(sorted[i]);
      FstabRoundTrip(sorted[i]);
    }
  }

  /** Entries that read back one by one as the members of `sorted` read back as the set `sorted` lists. */
  lemma ReadBackAll(t: seq<FstabEntry>, sorted: seq<Filesystem>, fss: set<Filesystem>)
    requires |t| == |sorted| && (forall f :: f in sorted <==> f in fss)
    requires forall i :: 0 <= i < |t| ==> t[i].device.Some? && t[i].fsType.Some? && FromFstabEntry(t[i]) == sorted[i]
    ensures forall e :: e in t ==> e.device.Some? && e.fsType.Some?
    ensures PreviousEntries(t) == fss
  {
    var prev := PreviousEntries(t);
    forall f | f in prev ensures f in fss {
      var e :| e in t && f == FromFstabEntry(e);
      var i :| 0 <= i < |t| && t[i] == e;
      assert f == sorted[i];
    }
    forall f | f in fss ensures f in prev {
      var i :| 0 <= i < |sorted| && sorted[i] == f;
      assert t[i] in t && FromFstabEntry(t[i]) == f;
    }
  }

  /**
   * Reading back the table an update writes gives the desired filesystems, so a second
   * update reports nothing to change or remove.
   */
  lemma NewFstabReadBack(fss: set<Filesystem>)
    requires forall f :: f in fss ==> Storable(f)
    ensures forall e :: e in NewFstab(fss) ==> e.device.Some? && e.fsType.Some?
    ensures PreviousEntries(NewFstab(fss)) == fss
    ensures ChangedOrRemoved(PreviousEntries(NewFstab(fss)), fss) == {}
  {
    NewFstabEntries(fss);
    ReadBackAll(NewFstab(fss), SortedFilesystems(fss), fss);
  }

  /**
   * As written, a table holding one label- or uuid-addressed filesystem reads back as
   * something else, so every later update reports that entry as changed.
   */
  lemma NewFstabAsWrittenReadBack(f: Filesystem)
    requires f.Valid() && f.device.None?
    ensures forall e :: e in NewFstabAsWritten({f}) ==> e.device.Some? && e.fsType.Some?
    ensures ChangedOrRemoved(PreviousEntries(NewFstabAsWritten({f})), {f}) != {}
  {
    var t := NewFstabAsWritten({f});
    assert SortedFilesystems({f})[0] == f;
    FstabAsWrittenLosesReference(f);
    assert FromFstabEntry(t[0]) in ChangedOrRemoved(PreviousEntries(t), {f});
  }

  // The update itself.

  datatype FsOutcome =
    | BlkidFailed(error: BlkidError)  // the device probe could not be read
    | Declined                       // the operator did not confirm
    | Rewritten(fstab: seq<FstabEntry>)
    | MkfsFailed(failed: Cmd)        // a `mkfs` failed; later ones and the fstab are not touched

  /**
   * `update_filesystems`: probe the devices, plan the `mkfs` commands and the fstab
   * change, and once confirmed format in order and then rewrite the table.
   */
  method UpdateFilesystems(
    fss: set<Filesystem>, blkidLines: seq<string>, oldFstab: seq<FstabEntry>,
    confirmed: bool, succeeds: (nat, Cmd) -> bool)
    returns (mkfs: seq<Cmd>, changed: set<Filesystem>, attempted: seq<Cmd>, outcome: FsOutcome, ghost order: seq<Filesystem>)
    requires forall e :: e in oldFstab ==> e.device.Some? && e.fsType.Some?
    ensures ParseBlkid(blkidLines).Err? ==>
      outcome == BlkidFailed(ParseBlkid(blkidLines).error) && mkfs == [] && changed == {} && attempted == []
    ensures ParseBlkid(blkidLines).Ok? ==>
      Enumerates(order, fss) && mkfs == MkfsPlan(order, ParseBlkid(blkidLines).value)
      && changed == ChangedOrRemoved(PreviousEntries(oldFstab), fss)
    ensures ParseBlkid(blkidLines).Ok? && !confirmed ==> outcome == FsOutcome.Declined && attempted == []
    ensures ParseBlkid(blkidLines).Ok? && confirmed ==>
      var k := FirstFailure(mkfs, succeeds, 0);
      if k == |mkfs| then attempted == mkfs && outcome == Rewritten(NewFstab(fss))
      else attempted == mkfs[..k + 1] && outcome == MkfsFailed(mkfs[k])
  {
    var infos := ReadDeviceInfos(blkidLines);
    if infos.Err? {
      return [], {}, [], BlkidFailed(infos.error), [];
    }
    mkfs, order := MkfsCommands(fss, infos.value);
    changed := ChangedOrRemoved(PreviousEntries(oldFstab), fss);
    if !confirmed {
      return mkfs, changed, [], FsOutcome.Declined, order;
    }
    var result;
    attempted, result := RunSequentially(mkfs, succeeds);
    if result.Completed? {
      outcome := Rewritten(NewFstab(fss));
    } else {
      outcome := MkfsFailed(result.failed);
    }
  }
}
