/**
 * The LVM entities of the configuration (src/kisiac/lvm.py): physical volumes,
 * volume groups owning physical volumes and named logical volumes, and the
 * parsing of the `lvm:` configuration mapping into them.
 */
module Lvm {
  import opened Wrappers
  import opened Yaml

  /** A physical volume, identified by its device path (value equality). */
  datatype PV = PV(device: string)

  /** A logical volume; layout and size are opaque strings. */
  datatype LV = LV(name: string, layout: string, size: string)

  /** A volume group with its physical volumes and its logical volumes by name. */
  datatype VG = VG(name: string, pvs: set<PV>, lvs: map<string, LV>)

  /** A desired or observed LVM state: physical volumes and volume groups by name. */
  datatype Entities = Entities(pvs: set<PV>, vgs: map<string, VG>) {

    /** `is_empty`: no physical volume and no volume group. */
    predicate IsEmpty()
      ensures IsEmpty() <==> this == NoEntities
    {
      pvs == {} && |vgs| == 0
    }
  }

  /** The value `LVMEntities()` starts from: no PV and no VG. */
  const NoEntities := Entities({}, map[])

  /** Every VG is stored under its own name and every LV under its own name. */
  ghost predicate WellKeyed(e: Entities) {
    forall n :: n in e.vgs ==>
      e.vgs[n].name == n && forall l :: l in e.vgs[n].lvs ==> e.vgs[n].lvs[l].name == l
  }

  /** Why parsing a configuration fails. */
  datatype ConfigError =
    | TypeCheck(what: string)                // `check_type` rejects a value
    | NotIterable(what: string)              // TypeError: `for` over a scalar
    | NoItems(what: string)                  // AttributeError: `.items()` on a non-mapping
    | MissingKey(what: string, key: string)  // KeyError
    | NotAString(what: string)               // a value the source takes unchecked

  function VgContext(vg: string): string { "lvm vg " + vg + " entry" }
  function LvsContext(vg: string): string { "lvm vg " + vg + " lvs entry" }
  function LvContext(vg: string, lv: string): string { "lvm vg " + vg + " lv " + lv + " entry" }

  /** The error of a device list: not iterable, or an item that is not a string. */
  function DeviceListError(v: Value, notIterable: ConfigError, badItem: ConfigError): (r: Option<ConfigError>)
    ensures r == None <==> (Iter(v).Some? && forall x :: x in Iter(v).value ==> x.Str?)
    ensures r.Some? ==> r.value in {notIterable, badItem}
  {
    match Iter(v)
    case None => Some(notIterable)
    case Some(items) => if forall x :: x in items ==> x.Str? then None else Some(badItem)
  }

  /** The error one LV entry raises, in the order the source evaluates it. */
  function LvError(vg: string, lv: string, v: Value): Option<ConfigError> {
    var ctx := LvContext(vg, lv);
    if !v.Dict? then Some(TypeCheck(ctx))
    else if "layout" !in v.entries then Some(MissingKey(ctx, "layout"))
    else if "size" !in v.entries then Some(MissingKey(ctx, "size"))
    else if !v.entries["layout"].Str? then Some(NotAString(ctx + " layout"))
    else if !v.entries["size"].Str? then Some(NotAString(ctx + " size"))
    else None
  }

  function VgPvsError(vg: string, settings: map<string, Value>): Option<ConfigError> {
    DeviceListError(Get(settings, "pvs", List([])),
                    NotIterable("lvm vg " + vg + " pvs"), NotAString("lvm vg " + vg + " pv entry"))
  }

  function TopPvsError(top: map<string, Value>): Option<ConfigError> {
    DeviceListError(Get(top, "pvs", List([])), NotIterable("lvm pvs"), TypeCheck("lvm pv entry"))
  }

  /** The device strings a device list names. */
  ghost function Devices(v: Value): set<string>
    requires Iter(v).Some?
  {
    set x | x in Iter(v).value && x.Str? :: x.s
  }

  /** `lv` is the LV the source builds for entry `v` stored under `name`. */
  ghost predicate LvFromEntry(lv: LV, name: string, v: Value) {
    && v.Dict? && "layout" in v.entries && "size" in v.entries
    && lv.name == name
    && v.entries["layout"] == Str(lv.layout)
    && v.entries["size"] == Str(lv.size)
  }

  /** `vg` is the VG the source builds for entry `settings` stored under `name`. */
  ghost predicate VgFromEntry(vg: VG, name: string, settings: Value) {
    && settings.Dict?
    && var lvs := Get(settings.entries, "lvs", Dict(map[]));
    && var pvs := Get(settings.entries, "pvs", List([]));
    && vg.name == name
    && lvs.Dict? && vg.lvs.Keys == lvs.entries.Keys
    && (forall l :: l in vg.lvs ==> LvFromEntry(vg.lvs[l], l, lvs.entries[l]))
    && Iter(pvs).Some?
    && (forall d :: PV(d) in vg.pvs <==> d in Devices(pvs))
  }

  /** A VG entry the source accepts. */
  ghost predicate VgEntryOk(name: string, settings: Value) {
    && settings.Dict?
    && var lvs := Get(settings.entries, "lvs", Dict(map[]));
    && lvs.Dict?
    && (forall l :: l in lvs.entries ==> LvError(name, l, lvs.entries[l]).None?)
    && VgPvsError(name, settings.entries).None?
  }

  /** `e` is an error the source may raise for VG entry `settings`. */
  ghost predicate VgRaises(name: string, settings: Value, e: ConfigError) {
    if !settings.Dict? then e == TypeCheck(VgContext(name))
    else
      var lvs := Get(settings.entries, "lvs", Dict(map[]));
      if !lvs.Dict? then e == TypeCheck(LvsContext(name))
      else if exists l :: l in lvs.entries && LvError(name, l, lvs.entries[l]).Some?
      then exists l :: l in lvs.entries && LvError(name, l, lvs.entries[l]) == Some(e)
      else VgPvsError(name, settings.entries) == Some(e)
  }

  /** A configuration the source accepts. */
  ghost predicate LvmConfigOk(config: Value) {
    && config.Dict?
    && TopPvsError(config.entries).None?
    && var vgs := Get(config.entries, "vgs", Dict(map[]));
    && vgs.Dict?
    && forall n :: n in vgs.entries ==> VgEntryOk(n, vgs.entries[n])
  }

  /** `e` is an error the source may raise for `config`. */
  ghost predicate Raises(config: Value, e: ConfigError) {
    if !config.Dict? then e == TypeCheck("lvm key")
    else if TopPvsError(config.entries).Some? then TopPvsError(config.entries) == Some(e)
    else
      var vgs := Get(config.entries, "vgs", Dict(map[]));
      if !vgs.Dict? then e == NoItems("lvm vgs")
      else exists n :: n in vgs.entries && !VgEntryOk(n, vgs.entries[n]) && VgRaises(n, vgs.entries[n], e)
  }

  /** Parses one LV entry. */
  function ParseLv(vg: string, name: string, v: Value): (r: Result<LV, ConfigError>)
    ensures r.Ok? <==> LvError(vg, name, v).None?
    ensures r.Err? ==> LvError(vg, name, v) == Some(r.error)
    ensures r.Ok? ==> LvFromEntry(r.value, name, v)
  {
    match LvError(vg, name, v)
    case Some(e) => Err(e)
    case None => Ok(LV(name, v.entries["layout"].s, v.entries["size"].s))
  }

  /** The PVs of a device list known to hold only strings. */
  method ParseDevices(v: Value) returns (pvs: set<PV>)
    requires Iter(v).Some? && forall x :: x in Iter(v).value ==> x.Str?
    ensures forall d :: PV(d) in pvs <==> d in Devices(v)
  {
    var items := Iter(v).value;
    pvs := {};
    for i := 0 to |items|
      invariant forall d :: PV(d) in pvs <==> Str(d) in items[..i]
    {
      pvs := pvs + {PV(items[i].s)};
    }
    assert items[..|items|] == items;
  }

  /** The body of the loop over `vgs` for one entry: its LVs, then its PVs. */
  method ParseVg(name: string, settings: Value) returns (r: Result<VG, ConfigError>)
    ensures r.Ok? <==> VgEntryOk(name, settings)
    ensures r.Err? ==> VgRaises(name, settings, r.error)
    ensures r.Ok? ==> VgFromEntry(r.value, name, settings)
  {
    if !settings.Dict? { return Err(TypeCheck(VgContext(name))); }
    var lvs := Get(settings.entries, "lvs", Dict(map[]));
    if !lvs.Dict? { return Err(TypeCheck(LvsContext(name))); }
    var lvsEntities: map<string, LV> := map[];
    var todo := lvs.entries.Keys;
    while todo != {}
      invariant todo <= lvs.entries.Keys
      invariant lvsEntities.Keys == lvs.entries.Keys - todo
      invariant forall l :: l in lvsEntities ==>
        LvError(name, l, lvs.entries[l]).None? && LvFromEntry(lvsEntities[l], l, lvs.entries[l])
      decreases todo
    {
      var lvName :| lvName in todo;
      var lv := ParseLv(name, lvName, lvs.entries[lvName]);
      if lv.Err? { return Err(lv.error); }
      lvsEntities := lvsEntities[lvName := lv.value];
      todo := todo - {lvName};
    }
    var pvsValue := Get(settings.entries, "pvs", List([]));
    var pvErr := VgPvsError(name, settings.entries);
    if pvErr.Some? { return Err(pvErr.value); }
    var pvs := ParseDevices(pvsValue);
    return Ok(VG(name, pvs, lvsEntities));
  }

  /** `LVMEntities.from_config`: the entities a `lvm:` configuration mapping declares. */
  method FromConfig(config: Value) returns (r: Result<Entities, ConfigError>)
    ensures r.Ok? <==> LvmConfigOk(config)
    ensures r.Err? ==> Raises(config, r.error)
    ensures r.Ok? ==> WellKeyed(r.value)
    ensures r.Ok? ==> forall d :: PV(d) in r.value.pvs <==> d in Devices(Get(config.entries, "pvs", List([])))
    ensures r.Ok? ==> var vgs := Get(config.entries, "vgs", Dict(map[]));
      && r.value.vgs.Keys == vgs.entries.Keys
      && forall n :: n in r.value.vgs ==> VgFromEntry(r.value.vgs[n], n, vgs.entries[n])
  {
    if !config.Dict? { return Err(TypeCheck("lvm key")); }
    var top := config.entries;
    var pvErr := TopPvsError(top);
    if pvErr.Some? { return Err(pvErr.value); }
    var pvs := ParseDevices(Get(top, "pvs", List([])));
    var vgsValue := Get(top, "vgs", Dict(map[]));
    if !vgsValue.Dict? { return Err(NoItems("lvm vgs")); }
    var vgs: map<string, VG> := map[];
    var todo := vgsValue.entries.Keys;
    while todo != {}
      invariant todo <= vgsValue.entries.Keys
      invariant vgs.Keys == vgsValue.entries.Keys - todo
      invariant forall n :: n in vgs ==>
        VgEntryOk(n, vgsValue.entries[n]) && VgFromEntry(vgs[n], n, vgsValue.entries[n])
      decreases todo
    {
      var name :| name in todo;
      var vg := ParseVg(name, vgsValue.entries[name]);
      if vg.Err? { return Err(vg.error); }
      vgs := vgs[name := vg.value];
      todo := todo - {name};
    }
    return Ok(Entities(pvs, vgs));
  }
}
