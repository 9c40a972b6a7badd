/** Concrete examples of both modes on a one-switch catalog, proved as lemmas. */
module Scenarios {
  import opened Wrappers
  import opened Vars
  import opened Netbox
  import opened HostVars
  import opened ListMode
  import opened HostMode

  /** The one-switch catalog: `sw1`, a cisco test switch at lon1 with config context
      `{serial: "XYZ"}` and an empty host_vars file. */
  function Sw1(rackId: Option<int>): Device
  {
    Device("sw1", "testswitch", "cisco", "lon1", rackId, Some(map["serial" := Str("XYZ")]))
  }

  function Sw1Catalog(rackId: Option<int>): Catalog
  {
    Catalog([Manufacturer("cisco")], [Site("lon1")], [DeviceRole("testswitch")], [Sw1(rackId)])
  }

  function Sw1Layers(): Layers
  {
    Layers(map["env" := Str("lab")],
           map["cisco" := map["vendor" := Str("cisco")]],
           map["lon1" := map[]],
           map["testswitch" := map[]],
           map["sw1" := map["serial" := Str("XYZ")]])
  }

  /** `sw1` has no rack, so list mode aborts at `d.rack.id` instead of skipping it. */
  lemma NoRackAbortsList()
    ensures GetInventoryList(Sw1Catalog(None), Sw1Layers(), [], []) == Failure(DeviceWithoutRack("sw1"))
  {
    var cat := Sw1Catalog(None);
    var byRole := ScopeGroups(cat, Sw1Layers());
    assert byRole.Success?;
    AppendRackHostsAborts(RackGroupSkeleton(byRole.value, []), cat.devices, [], 0);
  }

  lemma Sw1Slugs(rackId: Option<int>)
    ensures ManufacturerSlugs(Sw1Catalog(rackId).manufacturers) == ["cisco"]
    ensures SiteSlugs(Sw1Catalog(rackId).sites) == ["lon1"]
    ensures RoleSlugs(Sw1Catalog(rackId).roles) == ["testswitch"]
  {
  }

  lemma Sw1ListSucceeds()
    ensures ListSucceeds(Sw1Catalog(Some(7)), Sw1Layers())
  {
    Sw1Slugs(Some(7));
    assert Sw1Catalog(Some(7)).devices[0].rackId.Some?;
  }

  /** `sw1`'s host vars, as list mode reads them: the empty host_vars file overridden by
      the config context. */
  lemma Sw1HostVars(rackId: Option<int>)
    ensures ReadHostVars([Sw1(rackId)], map["host_vars/sw1" := map[]]) == Sw1Layers().hostVars
  {
    var ds := [Sw1(rackId)];
    assert LastWithName(ds, 0);
    ReadHostVarsLast(ds, map["host_vars/sw1" := map[]], 0);
    assert HostBundle(ds[0], map["host_vars/sw1" := map[]]) == map["serial" := Str("XYZ")];
  }

  lemma Sw1CiscoHosts()
    ensures Names(FilterDevices([Sw1(Some(7))], DeviceRoles, ["cisco"], None))
            + RackGroupHosts([Sw1(Some(7))], [Rack(7, None)], "cisco") == ["sw1"]
  {
    var ds := [Sw1(Some(7))];
    assert Passes(ds[0], DeviceRoles, ["cisco"], None);
    assert FilterDevices(ds, DeviceRoles, ["cisco"], None) == ds;
    assert RackGroupOf(ds[0], [Rack(7, None)]) == None;
    assert RackGroupHosts(ds, [Rack(7, None)], "cisco") == [];
    assert Names(ds) == ["sw1"];
  }

  lemma Sw1CiscoGroup()
    ensures var r := GetInventoryList(Sw1Catalog(Some(7)), Sw1Layers(), [Rack(7, None)], []);
            r.Success? && "cisco" in r.value && r.value["cisco"] == Group(["sw1"], Some(map["vendor" := Str("cisco")]), None)
  {
    Sw1ListSucceeds();
    Sw1Slugs(Some(7));
    assert RackGroupSlugs([]) == [];
    ManufacturerGroup(Sw1Catalog(Some(7)), Sw1Layers(), [Rack(7, None)], [], "cisco");
    Sw1CiscoHosts();
  }

  lemma Sw1Names()
    ensures Names([Sw1(Some(7))]) == ["sw1"]
  {
  }

  lemma Sw1All()
    ensures var r := GetInventoryList(Sw1Catalog(Some(7)), Sw1Layers(), [Rack(7, None)], []);
            && r.Success?
            && "all" in r.value && r.value["all"].Group? && r.value["all"].hosts == ["sw1"]
  {
    Sw1ListSucceeds();
    SyntheticGroups(Sw1Catalog(Some(7)), Sw1Layers(), [Rack(7, None)], []);
    Sw1Names();
  }

  lemma Sw1Meta()
    ensures var r := GetInventoryList(Sw1Catalog(Some(7)), Sw1Layers(), [Rack(7, None)], []);
            && r.Success?
            && "_meta" in r.value && r.value["_meta"].Meta? && "sw1" in r.value["_meta"].hostvars
            && r.value["_meta"].hostvars["sw1"] == map["serial" := Str("XYZ")]
  {
    Sw1ListSucceeds();
    SyntheticGroups(Sw1Catalog(Some(7)), Sw1Layers(), [Rack(7, None)], []);
    Sw1HostVars(Some(7));
  }

  /** With `sw1` in a rack that has no rack group, list mode succeeds: group `cisco` holds
      `sw1`, `all` holds `sw1`, and its host vars are its config context. */
  lemma RackWithoutGroupList()
    ensures var r := GetInventoryList(Sw1Catalog(Some(7)), Sw1Layers(), [Rack(7, None)], []);
            && r.Success?
            && "cisco" in r.value && r.value["cisco"] == Group(["sw1"], Some(map["vendor" := Str("cisco")]), None)
            && "all" in r.value && r.value["all"].Group? && r.value["all"].hosts == ["sw1"]
            && "_meta" in r.value && r.value["_meta"].Meta? && "sw1" in r.value["_meta"].hostvars
            && r.value["_meta"].hostvars["sw1"] == map["serial" := Str("XYZ")]
  {
    Sw1CiscoGroup();
    Sw1All();
    Sw1Meta();
  }

  /** The two modes disagree on `sw1`'s variables: host mode layers `all` and the
      manufacturer's bundle under the host bundle, list mode's `_meta` holds the host bundle
      alone. */
  lemma ModesDiverge()
    ensures var r := GetInventoryList(Sw1Catalog(Some(7)), Sw1Layers(), [Rack(7, None)], []);
            && r.Success? && "_meta" in r.value && r.value["_meta"].Meta? && "sw1" in r.value["_meta"].hostvars
            && "env" !in r.value["_meta"].hostvars["sw1"]
            && "env" in GetInventoryHost("sw1", [Sw1(Some(7))], Sw1Layers())
  {
    Sw1Meta();
    Precedence("sw1", [Sw1(Some(7))], Sw1Layers(), 0, "env");
  }
}
