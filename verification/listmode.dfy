/** List mode (`get_inventory_list`): the full inventory document, built by successive
    writes into one map in this order: manufacturer, site and role groups, rack-group
    groups, `all`, `ungrouped`, `_meta`. A later write replaces an earlier group with
    the same name. */
module ListMode {
  import opened Wrappers
  import opened Seqs
  import opened Vars
  import opened Netbox
  import opened HostVars
  import opened Loading

  /** One entry of the document: a group, or the `_meta` record. `vars` and `children`
      are `None` where the source does not set that key. */
  datatype Entry =
    | Group(hosts: seq<string>, vars: Option<Bundle>, children: Option<seq<string>>)
    | Meta(hostvars: map<string, Bundle>)

  type Inventory = map<string, Entry>

  /** Why list mode aborts: a scope slug with no loaded bundle (a KeyError), or a device
      without a rack (`d.rack.id` on `None`, outside the `try`). */
  datatype Error = MissingGroupVars(slug: string) | DeviceWithoutRack(device: string)

  datatype Scope = ByManufacturer | BySite | ByRole

  /** Whether a device passes the filter of the scope group `slug`: that slug in the
      narrowed argument, the other role and manufacturer arguments at their defaults. */
  predicate InScope(scope: Scope, slug: string, d: Device)
  {
    && ScopeKey(scope, d) == slug
    && (scope == ByRole || d.roleSlug in DeviceRoles)
    && (scope == ByManufacturer || d.manufacturerSlug in Manufacturers)
  }

  /** The devices of one scope group: `_filter_devices` narrowed on that one argument,
      the other lists keeping their defaults. */
  function ScopeDevices(scope: Scope, slug: string, devices: seq<Device>): (r: seq<Device>)
    ensures forall d :: d in r <==> d in devices && InScope(scope, slug, d)
    ensures forall d :: multiset(r)[d] == if InScope(scope, slug, d) then multiset(devices)[d] else 0
    ensures IsSubseq(r, devices)
  {
    match scope
    case ByManufacturer => FilterDevices(devices, DeviceRoles, [slug], None)
    case BySite => FilterDevices(devices, DeviceRoles, Manufacturers, Some([slug]))
    case ByRole => FilterDevices(devices, [slug], Manufacturers, None)
  }

  function ScopeGroup(scope: Scope, slug: string, bundle: Bundle, devices: seq<Device>): Entry
  {
    Group(Names(ScopeDevices(scope, slug, devices)), Some(bundle), None)
  }

  /** One scope loop: a group per slug, in order; stops at the first slug without a bundle. */
  function WriteScopeGroups(inv: Inventory, scope: Scope, slugs: seq<string>, vars: map<string, Bundle>,
                            devices: seq<Device>): (r: Result<Inventory, Error>)
    ensures r.Success? <==> forall s :: s in slugs ==> s in vars
    ensures r.Success? ==> r.value.Keys == inv.Keys + set s | s in slugs
    decreases |slugs|
  {
    if |slugs| == 0 then Success(inv)
    else if slugs[0] !in vars then Failure(MissingGroupVars(slugs[0]))
    else
      assert forall s :: s in slugs <==> s == slugs[0] || s in slugs[1..];
      WriteScopeGroups(inv[slugs[0] := ScopeGroup(scope, slugs[0], vars[slugs[0]], devices)],
                       scope, slugs[1..], vars, devices)
  }

  /** A scope loop aborts on its first slug that has no bundle. */
  lemma {:induction false} WriteScopeGroupsAborts(inv: Inventory, scope: Scope, slugs: seq<string>,
                                                  vars: map<string, Bundle>, devices: seq<Device>, i: nat)
    requires i < |slugs| && slugs[i] !in vars
    requires forall j :: 0 <= j < i ==> slugs[j] in vars
    ensures WriteScopeGroups(inv, scope, slugs, vars, devices) == Failure(MissingGroupVars(slugs[i]))
    decreases i
  {
    if i > 0 {
      WriteScopeGroupsAborts(inv[slugs[0] := ScopeGroup(scope, slugs[0], vars[slugs[0]], devices)],
                             scope, slugs[1..], vars, devices, i - 1);
    }
  }

  /** After a scope loop, each of its slugs names that slug's scope group and every other
      key keeps its entry. */
  lemma {:induction false} WriteScopeGroupsContents(inv: Inventory, scope: Scope, slugs: seq<string>,
                                                    vars: map<string, Bundle>, devices: seq<Device>, k: string)
    requires WriteScopeGroups(inv, scope, slugs, vars, devices).Success?
    ensures k in slugs ==>
      WriteScopeGroups(inv, scope, slugs, vars, devices).value[k] == ScopeGroup(scope, k, vars[k], devices)
    ensures k !in slugs && k in inv ==> WriteScopeGroups(inv, scope, slugs, vars, devices).value[k] == inv[k]
    decreases |slugs|
  {
    if |slugs| > 0 {
      var next := inv[slugs[0] := ScopeGroup(scope, slugs[0], vars[slugs[0]], devices)];
      WriteScopeGroupsContents(next, scope, slugs[1..], vars, devices, k);
      assert k in slugs <==> k == slugs[0] || k in slugs[1..];
    }
  }

  /** The rack-group loop's first half: an empty-hosts group per rack group. */
  function RackGroupSkeleton(inv: Inventory, groups: seq<RackGroup>): (r: Inventory)
    ensures r.Keys == inv.Keys + set s | s in RackGroupSlugs(groups)
    ensures forall s :: s in RackGroupSlugs(groups) ==> r[s] == Group([], None, None)
    ensures forall k :: k in inv && k !in RackGroupSlugs(groups) ==> r[k] == inv[k]
    decreases |groups|
  {
    if |groups| == 0 then inv
    else
      assert forall s :: s in RackGroupSlugs(groups) <==> s == groups[0].slug || s in RackGroupSlugs(groups[1..]) by {
        assert RackGroupSlugs(groups) == [groups[0].slug] + RackGroupSlugs(groups[1..]);
      }
      RackGroupSkeleton(inv[groups[0].slug := Group([], None, None)], groups[1..])
  }

  /** The slug of the rack group of a device's rack, when the rack resolves and has a group. */
  function RackGroupOf(d: Device, racks: seq<Rack>): (r: Option<string>)
    ensures r.Some? <==>
      d.rackId.Some? && GetRackById(racks, d.rackId.value).Some? && GetRackById(racks, d.rackId.value).value.group.Some?
    ensures r.Some? ==> r.value == GetRackById(racks, d.rackId.value).value.group.value.slug
  {
    match d.rackId
    case None => None
    case Some(id) =>
      match GetRackById(racks, id)
      case None => None
      case Some(rack) =>
        match rack.group
        case None => None
        case Some(g) => Some(g.slug)
  }

  /** Names, in device order, of the devices whose rack resolves to rack group `g`. */
  function RackGroupHosts(devices: seq<Device>, racks: seq<Rack>, g: string): seq<string>
    decreases |devices|
  {
    if |devices| == 0 then []
    else (if RackGroupOf(devices[0], racks) == Some(g) then [devices[0].name] else [])
         + RackGroupHosts(devices[1..], racks, g)
  }

  /** `e` with `hs` appended to its hosts; an entry without hosts is left alone. */
  function WithHosts(e: Entry, hs: seq<string>): Entry
  {
    if e.Group? then e.(hosts := e.hosts + hs) else e
  }

  /** The rack-group loop's second half: each device in turn is appended to the group
      named by its rack's group slug. A rack that does not resolve, a rack without a
      group, or a slug that is not a key skips that device only; a device without a
      rack aborts. */
  function AppendRackHosts(inv: Inventory, devices: seq<Device>, racks: seq<Rack>): (r: Result<Inventory, Error>)
    ensures r.Success? <==> forall i :: 0 <= i < |devices| ==> devices[i].rackId.Some?
    ensures r.Success? ==> r.value.Keys == inv.Keys
    decreases |devices|
  {
    if |devices| == 0 then Success(inv)
    else
      var d := devices[0];
      if d.rackId.None? then Failure(DeviceWithoutRack(d.name))
      else
        AppendRackHosts(AppendOne(inv, d, racks), devices[1..], racks)
  }

  /** One iteration of the device loop: the device joins the group its rack's group slug
      names, if that resolves to a key. */
  function AppendOne(inv: Inventory, d: Device, racks: seq<Rack>): Inventory
  {
    match RackGroupOf(d, racks)
    case None => inv
    case Some(g) => if g in inv then inv[g := WithHosts(inv[g], [d.name])] else inv
  }

  /** The device loop aborts on its first device without a rack. */
  lemma {:induction false} AppendRackHostsAborts(inv: Inventory, devices: seq<Device>, racks: seq<Rack>, i: nat)
    requires i < |devices| && devices[i].rackId.None?
    requires forall j :: 0 <= j < i ==> devices[j].rackId.Some?
    ensures AppendRackHosts(inv, devices, racks) == Failure(DeviceWithoutRack(devices[i].name))
    decreases i
  {
    if i > 0 {
      AppendRackHostsAborts(AppendOne(inv, devices[0], racks), devices[1..], racks, i - 1);
    }
  }

  lemma WithHostsTwice(e: Entry, a: seq<string>, b: seq<string>)
    ensures WithHosts(WithHosts(e, a), b) == WithHosts(e, a + b)
  {
    if e.Group? {
      assert e.hosts + a + b == e.hosts + (a + b);
    }
  }

  /** After the device loop, the group at each key has gained, in device order, exactly the
      devices whose rack resolves to a group with that slug. */
  lemma {:induction false} AppendRackHostsContents(inv: Inventory, devices: seq<Device>, racks: seq<Rack>, k: string)
    requires AppendRackHosts(inv, devices, racks).Success?
    requires k in inv
    ensures AppendRackHosts(inv, devices, racks).value[k] == WithHosts(inv[k], RackGroupHosts(devices, racks, k))
    decreases |devices|
  {
    if |devices| == 0 {
      assert RackGroupHosts(devices, racks, k) == [];
      if inv[k].Group? {
        assert inv[k].hosts + [] == inv[k].hosts;
      }
    } else {
      var d := devices[0];
      var next := AppendOne(inv, d, racks);
      AppendRackHostsContents(next, devices[1..], racks, k);
      var mine := if RackGroupOf(d, racks) == Some(k) then [d.name] else [];
      assert next[k] == WithHosts(inv[k], mine) by {
        if RackGroupOf(d, racks) != Some(k) && inv[k].Group? {
          assert inv[k].hosts + [] == inv[k].hosts;
        }
      }
      WithHostsTwice(inv[k], mine, RackGroupHosts(devices[1..], racks, k));
    }
  }

  /** The three scope loops, manufacturers then sites then roles. */
  function ScopeGroups(cat: Catalog, layers: Layers): (r: Result<Inventory, Error>)
    ensures r.Success? <==>
      && (forall s :: s in ManufacturerSlugs(cat.manufacturers) ==> s in layers.manufacturerVars)
      && (forall s :: s in SiteSlugs(cat.sites) ==> s in layers.siteVars)
      && (forall s :: s in RoleSlugs(cat.roles) ==> s in layers.roleVars)
    ensures r.Success? ==>
      r.value.Keys == (set s | s in ManufacturerSlugs(cat.manufacturers)) + (set s | s in SiteSlugs(cat.sites))
                      + (set s | s in RoleSlugs(cat.roles))
  {
    var byManufacturer :- WriteScopeGroups(map[], ByManufacturer, ManufacturerSlugs(cat.manufacturers),
                                           layers.manufacturerVars, cat.devices);
    var bySite :- WriteScopeGroups(byManufacturer, BySite, SiteSlugs(cat.sites), layers.siteVars, cat.devices);
    WriteScopeGroups(bySite, ByRole, RoleSlugs(cat.roles), layers.roleVars, cat.devices)
  }

  /** What list mode needs to finish: a bundle for every manufacturer, site and role slug,
      and a rack for every device. */
  predicate ListSucceeds(cat: Catalog, layers: Layers)
  {
    && (forall s :: s in ManufacturerSlugs(cat.manufacturers) ==> s in layers.manufacturerVars)
    && (forall s :: s in SiteSlugs(cat.sites) ==> s in layers.siteVars)
    && (forall s :: s in RoleSlugs(cat.roles) ==> s in layers.roleVars)
    && (forall i :: 0 <= i < |cat.devices| ==> cat.devices[i].rackId.Some?)
  }

  /** `get_inventory_list` over an explicit catalog, bundles, and the fetched racks and
      rack groups. */
  function GetInventoryList(cat: Catalog, layers: Layers, racks: seq<Rack>, rackGroups: seq<RackGroup>): (r: Result<Inventory, Error>)
    ensures r.Success? <==> ListSucceeds(cat, layers)
  {
    var byRole :- ScopeGroups(cat, layers);
    var byRack :- AppendRackHosts(RackGroupSkeleton(byRole, rackGroups), cat.devices, racks);
    var children := ManufacturerSlugs(cat.manufacturers) + SiteSlugs(cat.sites) + RoleSlugs(cat.roles);
    Success(byRack["all" := Group(Names(cat.devices), Some(layers.allVars), Some(children))]
                  ["ungrouped" := Group([], None, None)]
                  ["_meta" := Meta(layers.hostVars)])
  }

  /** The names the synthetic groups take; a scope or rack group with one of them is replaced. */
  const Reserved: set<string> := {"all", "ungrouped", "_meta"}

  /** The document's keys are the scope slugs, the rack-group slugs and the synthetic
      group names. */
  lemma ListKeys(cat: Catalog, layers: Layers, racks: seq<Rack>, rackGroups: seq<RackGroup>)
    requires ListSucceeds(cat, layers)
    ensures GetInventoryList(cat, layers, racks, rackGroups).value.Keys
         == (set s | s in ManufacturerSlugs(cat.manufacturers)) + (set s | s in SiteSlugs(cat.sites))
            + (set s | s in RoleSlugs(cat.roles)) + (set s | s in RackGroupSlugs(rackGroups)) + Reserved
  {
  }

  /** The synthetic entries, written last: `all` lists every device name in order with
      `all_vars` and the manufacturer, site and role slugs as children; `ungrouped` has no
      hosts; `_meta` holds the host-vars map. */
  lemma SyntheticGroups(cat: Catalog, layers: Layers, racks: seq<Rack>, rackGroups: seq<RackGroup>)
    requires ListSucceeds(cat, layers)
    ensures var inv := GetInventoryList(cat, layers, racks, rackGroups).value;
      && "all" in inv && "ungrouped" in inv && "_meta" in inv
      && inv["all"] == Group(Names(cat.devices), Some(layers.allVars),
                             Some(ManufacturerSlugs(cat.manufacturers) + SiteSlugs(cat.sites) + RoleSlugs(cat.roles)))
      && inv["ungrouped"] == Group([], None, None)
      && inv["_meta"] == Meta(layers.hostVars)
  {
  }

  /** With the bundles read from files, every fetched manufacturer, site and role has a
      bundle (an empty one when its file is missing), so list mode can only abort on a
      device without a rack. */
  lemma GroupVarsNeverMissing(cat: Catalog, store: Store, racks: seq<Rack>, rackGroups: seq<RackGroup>)
    ensures GetInventoryList(cat, ReadLayers(cat, store), racks, rackGroups).Success?
        <==> forall i :: 0 <= i < |cat.devices| ==> cat.devices[i].rackId.Some?
  {
  }

  /** `_meta` lists one bundle per device name, and the last device with a name decides
      that name's bundle: its host_vars file overridden by its config context. */
  lemma MetaEntry(cat: Catalog, layers: Layers, store: Store, racks: seq<Rack>, rackGroups: seq<RackGroup>, i: nat)
    requires ListSucceeds(cat, layers) && layers.hostVars == ReadHostVars(cat.devices, store)
    requires i < |cat.devices| && LastWithName(cat.devices, i)
    ensures var inv := GetInventoryList(cat, layers, racks, rackGroups).value;
      && "_meta" in inv && inv["_meta"].Meta?
      && inv["_meta"].hostvars.Keys == (set d | d in cat.devices :: d.name)
      && inv["_meta"].hostvars[cat.devices[i].name] == HostBundle(cat.devices[i], store)
  {
    SyntheticGroups(cat, layers, racks, rackGroups);
    ReadHostVarsLast(cat.devices, store, i);
  }

  /** After the scope loops, a slug holds the group of the last scope that wrote it. */
  lemma ScopeGroupsContents(cat: Catalog, layers: Layers, k: string)
    requires ScopeGroups(cat, layers).Success?
    ensures k in RoleSlugs(cat.roles) ==>
      ScopeGroups(cat, layers).value[k] == ScopeGroup(ByRole, k, layers.roleVars[k], cat.devices)
    ensures k !in RoleSlugs(cat.roles) && k in SiteSlugs(cat.sites) ==>
      ScopeGroups(cat, layers).value[k] == ScopeGroup(BySite, k, layers.siteVars[k], cat.devices)
    ensures k !in RoleSlugs(cat.roles) && k !in SiteSlugs(cat.sites) && k in ManufacturerSlugs(cat.manufacturers) ==>
      ScopeGroups(cat, layers).value[k] == ScopeGroup(ByManufacturer, k, layers.manufacturerVars[k], cat.devices)
  {
    var ms := ManufacturerSlugs(cat.manufacturers);
    var ss := SiteSlugs(cat.sites);
    var rs := RoleSlugs(cat.roles);
    var byManufacturer := WriteScopeGroups(map[], ByManufacturer, ms, layers.manufacturerVars, cat.devices).value;
    var bySite := WriteScopeGroups(byManufacturer, BySite, ss, layers.siteVars, cat.devices).value;
    WriteScopeGroupsContents(map[], ByManufacturer, ms, layers.manufacturerVars, cat.devices, k);
    WriteScopeGroupsContents(byManufacturer, BySite, ss, layers.siteVars, cat.devices, k);
    WriteScopeGroupsContents(bySite, ByRole, rs, layers.roleVars, cat.devices, k);
  }

  /** A non-reserved key of the document holds the entry the scope loops or the rack-group
      skeleton left there, with the devices of the rack group of that name appended. */
  lemma ListEntry(cat: Catalog, layers: Layers, racks: seq<Rack>, rackGroups: seq<RackGroup>, k: string)
    requires ListSucceeds(cat, layers)
    requires k !in Reserved
    requires k in RackGroupSlugs(rackGroups) || k in ScopeGroups(cat, layers).value
    ensures GetInventoryList(cat, layers, racks, rackGroups).value[k]
         == WithHosts(if k in RackGroupSlugs(rackGroups) then Group([], None, None) else ScopeGroups(cat, layers).value[k],
                      RackGroupHosts(cat.devices, racks, k))
  {
    var byRole := ScopeGroups(cat, layers).value;
    var skeleton := RackGroupSkeleton(byRole, rackGroups);
    AppendRackHostsContents(skeleton, cat.devices, racks, k);
  }

  /** A manufacturer group not replaced by a later write: that manufacturer's allow-listed
      devices and bundle, plus any device whose rack's group has the same slug. */
  lemma ManufacturerGroup(cat: Catalog, layers: Layers, racks: seq<Rack>, rackGroups: seq<RackGroup>, m: string)
    requires ListSucceeds(cat, layers)
    requires m in ManufacturerSlugs(cat.manufacturers)
    requires m !in SiteSlugs(cat.sites) && m !in RoleSlugs(cat.roles) && m !in RackGroupSlugs(rackGroups) && m !in Reserved
    ensures m in layers.manufacturerVars
    ensures GetInventoryList(cat, layers, racks, rackGroups).value[m]
         == Group(Names(FilterDevices(cat.devices, DeviceRoles, [m], None)) + RackGroupHosts(cat.devices, racks, m),
                  Some(layers.manufacturerVars[m]), None)
  {
    ScopeGroupsContents(cat, layers, m);
    ListEntry(cat, layers, racks, rackGroups, m);
  }

  /** A site group not replaced by a later write: the allow-listed devices at that site and
      the site's bundle, plus any device whose rack's group has the same slug. */
  lemma SiteGroup(cat: Catalog, layers: Layers, racks: seq<Rack>, rackGroups: seq<RackGroup>, s: string)
    requires ListSucceeds(cat, layers)
    requires s in SiteSlugs(cat.sites)
    requires s !in RoleSlugs(cat.roles) && s !in RackGroupSlugs(rackGroups) && s !in Reserved
    ensures s in layers.siteVars
    ensures GetInventoryList(cat, layers, racks, rackGroups).value[s]
         == Group(Names(FilterDevices(cat.devices, DeviceRoles, Manufacturers, Some([s]))) + RackGroupHosts(cat.devices, racks, s),
                  Some(layers.siteVars[s]), None)
  {
    ScopeGroupsContents(cat, layers, s);
    ListEntry(cat, layers, racks, rackGroups, s);
  }

  /** A role group not replaced by a later write: the devices with that role and an
      allow-listed manufacturer, the role's bundle, plus any device whose rack's group has
      the same slug. */
  lemma RoleGroup(cat: Catalog, layers: Layers, racks: seq<Rack>, rackGroups: seq<RackGroup>, ro: string)
    requires ListSucceeds(cat, layers)
    requires ro in RoleSlugs(cat.roles)
    requires ro !in RackGroupSlugs(rackGroups) && ro !in Reserved
    ensures ro in layers.roleVars
    ensures GetInventoryList(cat, layers, racks, rackGroups).value[ro]
         == Group(Names(FilterDevices(cat.devices, [ro], Manufacturers, None)) + RackGroupHosts(cat.devices, racks, ro),
                  Some(layers.roleVars[ro]), None)
  {
    ScopeGroupsContents(cat, layers, ro);
    ListEntry(cat, layers, racks, rackGroups, ro);
  }

  /** A rack-group group: exactly the devices whose rack resolves to that group, in device
      order, with no vars. */
  lemma RackGroupGroup(cat: Catalog, layers: Layers, racks: seq<Rack>, rackGroups: seq<RackGroup>, g: string)
    requires ListSucceeds(cat, layers)
    requires g in RackGroupSlugs(rackGroups) && g !in Reserved
    ensures GetInventoryList(cat, layers, racks, rackGroups).value[g] == Group(RackGroupHosts(cat.devices, racks, g), None, None)
  {
    ListEntry(cat, layers, racks, rackGroups, g);
  }

  /** The slug a device is grouped under in a scope. */
  function ScopeKey(scope: Scope, d: Device): string
  {
    match scope
    case ByManufacturer => d.manufacturerSlug
    case BySite => d.siteSlug
    case ByRole => d.roleSlug
  }

  /** List mode's devices were fetched through the default filter. */
  predicate AllowListed(devices: seq<Device>)
  {
    forall d :: d in devices ==> d.roleSlug in DeviceRoles && d.manufacturerSlug in Manufacturers
  }

  /** Over already allow-listed devices, a scope group holds exactly the devices with that
      slug in its scope, in catalog order. */
  lemma {:induction false} ScopeDevicesOfAllowListed(scope: Scope, slug: string, devices: seq<Device>)
    requires AllowListed(devices)
    ensures ScopeDevices(scope, slug, devices) == Filter(devices, (d: Device) => ScopeKey(scope, d) == slug)
    decreases |devices|
  {
    var p := (d: Device) => ScopeKey(scope, d) == slug;
    if |devices| > 0 {
      var d := devices[0];
      assert d in devices;
      assert AllowListed(devices[1..]) by {
        assert forall x :: x in devices[1..] ==> x in devices;
      }
      ScopeDevicesOfAllowListed(scope, slug, devices[1..]);
      var rest := Filter(devices[1..], p);
      assert ScopeDevices(scope, slug, devices[1..]) == rest;
      assert Filter(devices, p) == if p(d) then [d] + rest else rest;
      match scope
      case ByManufacturer =>
        assert Passes(d, DeviceRoles, [slug], None) == p(d);
      case BySite =>
        assert Passes(d, DeviceRoles, Manufacturers, Some([slug])) == p(d);
      case ByRole =>
        assert Passes(d, [slug], Manufacturers, None) == p(d);
    }
  }

  /** The rack-group host list is the names of the devices filtered by resolved rack group. */
  lemma {:induction false} RackGroupHostsFilter(devices: seq<Device>, racks: seq<Rack>, g: string)
    ensures RackGroupHosts(devices, racks, g) == Names(Filter(devices, (d: Device) => RackGroupOf(d, racks) == Some(g)))
    decreases |devices|
  {
    var p := (d: Device) => RackGroupOf(d, racks) == Some(g);
    if |devices| > 0 {
      RackGroupHostsFilter(devices[1..], racks, g);
      var rest := Filter(devices[1..], p);
      assert Filter(devices, p) == if p(devices[0]) then [devices[0]] + rest else rest;
      if p(devices[0]) {
        NamesAppend([devices[0]], rest);
      }
    }
  }

  /** Every rack's group is among the fetched rack groups, as in a consistent NetBox snapshot. */
  predicate RacksConsistent(racks: seq<Rack>, rackGroups: seq<RackGroup>)
  {
    forall i :: 0 <= i < |racks| && racks[i].group.Some? ==> racks[i].group.value.slug in RackGroupSlugs(rackGroups)
  }

  /** With consistent racks, a slug that names no fetched rack group gains no rack members,
      so a scope group that is not replaced by the rack-group skeleton keeps exactly its
      filtered hosts. */
  lemma {:induction false} NoStrayRackHosts(devices: seq<Device>, racks: seq<Rack>, rackGroups: seq<RackGroup>, g: string)
    requires RacksConsistent(racks, rackGroups) && g !in RackGroupSlugs(rackGroups)
    ensures RackGroupHosts(devices, racks, g) == []
    decreases |devices|
  {
    if |devices| > 0 {
      NoStrayRackHosts(devices[1..], racks, rackGroups, g);
      assert RackGroupOf(devices[0], racks) != Some(g);
    }
  }

  /** A device whose rack has no rack group still belongs to its manufacturer, site and
      role scope groups, and to no rack group's devices. */
  lemma RackWithoutGroup(devices: seq<Device>, racks: seq<Rack>, d: Device, rack: Rack, g: string)
    requires AllowListed(devices) && d in devices
    requires d.rackId == Some(rack.id) && GetRackById(racks, rack.id) == Some(rack) && rack.group.None?
    ensures d in ScopeDevices(ByManufacturer, d.manufacturerSlug, devices)
    ensures d in ScopeDevices(BySite, d.siteSlug, devices)
    ensures d in ScopeDevices(ByRole, d.roleSlug, devices)
    ensures d !in Filter(devices, (x: Device) => RackGroupOf(x, racks) == Some(g))
  {
    assert d.roleSlug in DeviceRoles && d.manufacturerSlug in Manufacturers;
    assert RackGroupOf(d, racks) == None;
  }
}
