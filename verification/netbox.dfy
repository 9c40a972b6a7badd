/** The NetBox records the inventory reads, the configured allow-lists, and the lookup and
    filter helpers of netbox_inventory.py. Records are immutable snapshots passed in as
    arguments; nothing here talks to NetBox. */
module Netbox {
  import opened Wrappers
  import opened Seqs
  import opened Vars

  datatype Manufacturer = Manufacturer(slug: string)
  datatype Site = Site(slug: string)
  datatype DeviceRole = DeviceRole(slug: string)
  datatype RackGroup = RackGroup(id: int, slug: string)

  /** A rack, with the rack group it belongs to, if any. */
  datatype Rack = Rack(id: int, group: Option<RackGroup>)

  /** A device as seen through its device type, role, site and rack links. `ctx` is its
      `config_context`; `None` stands for a record without that attribute. */
  datatype Device = Device(
    name: string,
    roleSlug: string,
    manufacturerSlug: string,
    siteSlug: string,
    rackId: Option<int>,
    ctx: Option<Bundle>)

  /** The records fetched for one run (the `manufacturers`, `sites`, `roles` and `devices` globals). */
  datatype Catalog = Catalog(
    manufacturers: seq<Manufacturer>,
    sites: seq<Site>,
    roles: seq<DeviceRole>,
    devices: seq<Device>)

  /** The manufacturers this inventory is interested in (MANUFACTURERS). */
  const Manufacturers: seq<string> := ["arista", "cisco", "juniper"]

  /** The device roles this inventory is interested in (DEVICE_ROLES). */
  const DeviceRoles: seq<string> := ["testswitch", "testrouter", "infrastructurenetwork", "testfirewall"]

  function Names(ds: seq<Device>): seq<string>
  {
    seq(|ds|, i requires 0 <= i < |ds| => ds[i].name)
  }

  /** Taking names distributes over concatenation. */
  lemma NamesAppend(a: seq<Device>, b: seq<Device>)
    ensures Names(a + b) == Names(a) + Names(b)
  {
  }

  /** The slugs of a list of records, in order. */
  function Slugs<T>(xs: seq<T>, slug: T -> string): seq<string>
  {
    seq(|xs|, i requires 0 <= i < |xs| => slug(xs[i]))
  }

  function ManufacturerSlugs(ms: seq<Manufacturer>): seq<string>
  {
    Slugs(ms, (m: Manufacturer) => m.slug)
  }

  function SiteSlugs(ss: seq<Site>): seq<string>
  {
    Slugs(ss, (s: Site) => s.slug)
  }

  function RoleSlugs(rs: seq<DeviceRole>): seq<string>
  {
    Slugs(rs, (r: DeviceRole) => r.slug)
  }

  function RackGroupSlugs(gs: seq<RackGroup>): seq<string>
  {
    Slugs(gs, (g: RackGroup) => g.slug)
  }

  /** The first device whose name is `name`, or nothing when none is. */
  function GetDeviceByName(devices: seq<Device>, name: string): (r: Option<Device>)
    ensures r.None? <==> forall i :: 0 <= i < |devices| ==> devices[i].name != name
    ensures r.Some? ==>
      exists i :: 0 <= i < |devices| && devices[i] == r.value && devices[i].name == name
        && forall j :: 0 <= j < i ==> devices[j].name != name
  {
    match FindFirst(devices, (d: Device) => d.name == name)
    case None => None
    case Some(i) => Some(devices[i])
  }

  /** The first rack whose id is `id`, or nothing when none is. */
  function GetRackById(racks: seq<Rack>, id: int): (r: Option<Rack>)
    ensures r.None? <==> forall i :: 0 <= i < |racks| ==> racks[i].id != id
    ensures r.Some? ==>
      exists i :: 0 <= i < |racks| && racks[i] == r.value && racks[i].id == id
        && forall j :: 0 <= j < i ==> racks[j].id != id
  {
    match FindFirst(racks, (k: Rack) => k.id == id)
    case None => None
    case Some(i) => Some(racks[i])
  }

  /** The device filter's predicate: role and manufacturer allow-listed and, when a site
      list is given, the site too. */
  predicate Passes(d: Device, roleSlugs: seq<string>, manufacturerSlugs: seq<string>, siteSlugs: Option<seq<string>>)
  {
    && d.roleSlug in roleSlugs
    && d.manufacturerSlug in manufacturerSlugs
    && (siteSlugs.Some? ==> d.siteSlug in siteSlugs.value)
  }

  /** `_filter_devices`: the devices that pass, in input order. */
  function FilterDevices(devices: seq<Device>, roleSlugs: seq<string>, manufacturerSlugs: seq<string>,
                         siteSlugs: Option<seq<string>>): (r: seq<Device>)
    ensures forall d :: d in r <==>
      d in devices && d.roleSlug in roleSlugs && d.manufacturerSlug in manufacturerSlugs
        && (siteSlugs.Some? ==> d.siteSlug in siteSlugs.value)
    ensures forall d :: multiset(r)[d] == if Passes(d, roleSlugs, manufacturerSlugs, siteSlugs) then multiset(devices)[d] else 0
    ensures IsSubseq(r, devices)
  {
    FilterExact(devices, (d: Device) => Passes(d, roleSlugs, manufacturerSlugs, siteSlugs));
    Filter(devices, (d: Device) => Passes(d, roleSlugs, manufacturerSlugs, siteSlugs))
  }

  /** `_filter_roles`: the roles whose slug is allow-listed, in input order. */
  function FilterRoles(roles: seq<DeviceRole>, slugs: seq<string>): (r: seq<DeviceRole>)
    ensures forall x :: x in r <==> x in roles && x.slug in slugs
    ensures forall x :: multiset(r)[x] == if x.slug in slugs then multiset(roles)[x] else 0
    ensures IsSubseq(r, roles)
  {
    FilterExact(roles, (x: DeviceRole) => x.slug in slugs);
    Filter(roles, (x: DeviceRole) => x.slug in slugs)
  }

  /** `_filter_manufacturers`: the manufacturers whose slug is allow-listed, in input order. */
  function FilterManufacturers(manufacturers: seq<Manufacturer>, slugs: seq<string>): (r: seq<Manufacturer>)
    ensures forall x :: x in r <==> x in manufacturers && x.slug in slugs
    ensures forall x :: multiset(r)[x] == if x.slug in slugs then multiset(manufacturers)[x] else 0
    ensures IsSubseq(r, manufacturers)
  {
    FilterExact(manufacturers, (x: Manufacturer) => x.slug in slugs);
    Filter(manufacturers, (x: Manufacturer) => x.slug in slugs)
  }

  lemma FilterRolesIdempotent(roles: seq<DeviceRole>, slugs: seq<string>)
    ensures FilterRoles(FilterRoles(roles, slugs), slugs) == FilterRoles(roles, slugs)
  {
    FilterIdempotent(roles, (x: DeviceRole) => x.slug in slugs);
  }

  lemma FilterManufacturersIdempotent(manufacturers: seq<Manufacturer>, slugs: seq<string>)
    ensures FilterManufacturers(FilterManufacturers(manufacturers, slugs), slugs) == FilterManufacturers(manufacturers, slugs)
  {
    FilterIdempotent(manufacturers, (x: Manufacturer) => x.slug in slugs);
  }

  /** A site list narrows the device filter: the result is the no-site result further
      filtered by site, hence a subsequence of it. */
  lemma {:induction false} SiteFilterNarrows(devices: seq<Device>, roleSlugs: seq<string>, manufacturerSlugs: seq<string>, siteSlugs: seq<string>)
    ensures FilterDevices(devices, roleSlugs, manufacturerSlugs, Some(siteSlugs))
         == Filter(FilterDevices(devices, roleSlugs, manufacturerSlugs, None), (d: Device) => d.siteSlug in siteSlugs)
    ensures IsSubseq(FilterDevices(devices, roleSlugs, manufacturerSlugs, Some(siteSlugs)),
                     FilterDevices(devices, roleSlugs, manufacturerSlugs, None))
    decreases |devices|
  {
    if |devices| > 0 {
      SiteFilterNarrows(devices[1..], roleSlugs, manufacturerSlugs, siteSlugs);
      var rest := FilterDevices(devices[1..], roleSlugs, manufacturerSlugs, None);
      if Passes(devices[0], roleSlugs, manufacturerSlugs, None) {
        assert ([devices[0]] + rest)[1..] == rest;
      }
    }
  }
}
