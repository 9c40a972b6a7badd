# NetBox dynamic inventory: resolution engine

A Dafny model of the inventory resolution logic of `ansible/inventory/netbox_inventory.py`.
This is an Ansible dynamic-inventory script. It reads manufacturers, sites, device roles,
devices, racks and rack groups from NetBox. It reads variable bundles from `group_vars/`
and `host_vars/`. It then prints either the whole inventory (`--list`) or one host's
variables (`--host`).

The model has no NetBox client, no YAML reader and no globals. Every fetched record set
and every loaded bundle is an explicit argument:

- `Netbox.Catalog` holds the `manufacturers`, `sites`, `roles` and `devices` of one run.
- `Vars.Layers` holds `all_vars`, `manufacturer_vars`, `site_vars`, `role_vars` and `host_vars`.
- Racks and rack groups are passed to list mode directly.
- A device's `config_context` is the `ctx` field of `Netbox.Device`. `None` means the
  record has no such attribute.

Modules:

- `Wrappers`: `Option` and `Result`.
- `Seqs`: an order-preserving `Filter`, a first-match search, and the subsequence relation.
- `Vars`: values, bundles, and layering. Python's `dict.update` and `dict(a, **b)` are
  `Override`, where the right side wins. `Resolve` is the reference for a stack of layers:
  the topmost layer defining a key decides it.
- `Netbox`: the records, the `MANUFACTURERS` and `DEVICE_ROLES` allow-lists, the lookups
  and the three filters.
- `HostVars`: the per-host bundles of list mode.
- `Loading`: the bundles of one run, read from a store of files keyed by path.
- `ListMode`: `get_inventory_list`.
- `HostMode`: `get_inventory_host`.
- `Scenarios`: concrete examples on a one-switch catalog, proved as lemmas.

The inventory document is a `map<string, Entry>`. It is built by successive writes in the
source's order: manufacturer groups, site groups, role groups, rack-group groups, `all`,
`ungrouped`, `_meta`. A later write replaces an earlier entry with the same name. An `Entry`
is either a `Group` or the `Meta` record. In a `Group`, `vars` and `children` are `None`
where the source never sets that key. List mode can abort, so it returns a `Result`:

- `MissingGroupVars` is the `KeyError` of `manufacturer_vars[...]`, `site_vars[...]` or
  `role_vars[...]` for a slug with no bundle. `get_inventory_list` accepts any `Layers`, so
  this case is part of its contract. In the program it cannot happen:
  `_read_yaml_group_vars` (:164-193) writes a bundle for every slug of the same
  `manufacturers`, `sites` and `roles` lists, `{}` when the file is missing.
  `ListMode.GroupVarsNeverMissing` states that with the bundles of `Loading.ReadLayers`,
  list mode fails only on a device without a rack.
- `DeviceWithoutRack` is the `AttributeError` of `d.rack.id` when a device has no rack.
  That expression sits outside the `try`, so it is not swallowed.

Host mode swallows every failure into `{}`, as its `try ... except Exception` does.

Four behaviours of the code are easy to miss:

- A device with no rack is not skipped. `d.rack.id` (:234) is evaluated before the `try`,
  so such a device aborts list mode (`Scenarios.NoRackAbortsList`).
- A scope slug that is also a fetched rack group's slug is replaced at :231 by an empty
  group with no vars, which then holds only that rack group's devices (`RackGroupGroup`).
- Rack members are appended to whatever entry `inventory[r.group.slug]` holds (:237). A
  manufacturer, site or role group that survives :231 gains rack devices only when a rack
  names a group missing from the fetched rack groups. When every rack's group was fetched
  (`RacksConsistent`), `NoStrayRackHosts` shows it gains none, so `ManufacturerGroup`,
  `SiteGroup` and `RoleGroup` then hold exactly the names passing their narrowed filter.
- The per-scope groups call `_filter_devices` with one argument narrowed. The other
  allow-lists keep their defaults. For example, a site group only holds allow-listed
  roles and manufacturers.

## Model

| member | source | states |
|---|---|---|
| `Netbox.FilterDevices` | ansible/inventory/netbox_inventory.py:97-126 | a device is in the result iff it is in the input with role and manufacturer allow-listed and, when a site list is given, its site listed; every such device keeps all its occurrences and no other device appears; the result is a subsequence of the input |
| `Netbox.SiteFilterNarrows` | ansible/inventory/netbox_inventory.py:108-126 | with a site list, the result equals the no-site result further filtered by site, so it is a subsequence of the no-site result |
| `Netbox.FilterRoles` | ansible/inventory/netbox_inventory.py:129-131 | exactly the roles whose slug is allow-listed, with their multiplicities, as a subsequence of the input |
| `Netbox.FilterManufacturers` | ansible/inventory/netbox_inventory.py:143-145 | exactly the manufacturers whose slug is allow-listed, with their multiplicities, as a subsequence of the input |
| `Netbox.FilterRolesIdempotent` | ansible/inventory/netbox_inventory.py:129-131 | filtering roles twice with the same allow-list equals filtering once |
| `Netbox.FilterManufacturersIdempotent` | ansible/inventory/netbox_inventory.py:143-145 | filtering manufacturers twice with the same allow-list equals filtering once |
| `Netbox.GetDeviceByName` | ansible/inventory/netbox_inventory.py:91-94 | nothing iff no device has the name; otherwise the device at the first index with that name |
| `Netbox.GetRackById` | ansible/inventory/netbox_inventory.py:133-136 | nothing iff no rack has the id; otherwise the rack at the first index with that id |
| `Vars.Override` | ansible/inventory/netbox_inventory.py:158 | `dict(base, **top)` and `base.update(top)`: every key of either bundle is present; `top`'s value wins on shared keys and `base`'s is kept elsewhere |
| `Vars.Flatten` | ansible/inventory/netbox_inventory.py:278-288 | applying layers by successive updates defines exactly the keys some layer defines, each with the value of the topmost layer defining it (the `Resolve` reference) |
| `HostVars.HostBundle` | ansible/inventory/netbox_inventory.py:157-160 | a host's bundle has the keys of its host_vars file and of its config context; the context wins on shared keys; without a context it is the file alone, and a missing file reads as empty |
| `HostVars.ReadHostVars` | ansible/inventory/netbox_inventory.py:154-160 | the host-vars map has exactly one key per device name |
| `HostVars.ReadHostVarsLast` | ansible/inventory/netbox_inventory.py:154-160 | the entry of a name is the bundle of the last device with that name |
| `Loading.ReadGroupVars` | ansible/inventory/netbox_inventory.py:184-193 | one bundle per slug, exactly the slugs as keys, each read from `group_vars/<slug>` (empty when the file is missing) |
| `Loading.ReadLayers` | ansible/inventory/netbox_inventory.py:148-193 | `all_vars` is `group_vars/all`; the manufacturer, site and role maps have exactly the fetched slugs as keys, each mapped to its `group_vars/<slug>` bundle; `host_vars` is the per-device map |
| `ListMode.ScopeDevices` | ansible/inventory/netbox_inventory.py:209-223 | a scope group's devices are those with that slug in the scope whose other role and manufacturer arguments keep their allow-list defaults, each with all its occurrences, as a subsequence of the catalog |
| `ListMode.WriteScopeGroups` | ansible/inventory/netbox_inventory.py:206-224 | a scope loop succeeds iff every slug has a bundle, and then adds exactly its slugs as keys |
| `ListMode.WriteScopeGroupsAborts` | ansible/inventory/netbox_inventory.py:206-224 | a scope loop fails with the first slug that has no bundle |
| `ListMode.WriteScopeGroupsContents` | ansible/inventory/netbox_inventory.py:206-224 | after a scope loop each of its slugs holds that slug's scope group (hosts from the narrowed device filter, vars from the slug's bundle) and every other key is unchanged |
| `ListMode.ScopeGroups` | ansible/inventory/netbox_inventory.py:205-224 | the three scope loops succeed iff every manufacturer, site and role slug has a bundle, and then the keys are exactly those slugs |
| `ListMode.ScopeGroupsContents` | ansible/inventory/netbox_inventory.py:205-224 | after the scope loops a slug holds the role group if it is a role slug, else the site group if a site slug, else the manufacturer group |
| `ListMode.RackGroupSkeleton` | ansible/inventory/netbox_inventory.py:230-232 | every rack-group slug becomes a key holding a group with empty hosts; other keys are unchanged |
| `ListMode.RackGroupOf` | ansible/inventory/netbox_inventory.py:233-237 | a device has a rack group slug iff it has a rack id, the id resolves through `_get_object_by_id`, and that rack has a group; the slug is that group's |
| `ListMode.AppendRackHosts` | ansible/inventory/netbox_inventory.py:233-239 | the device loop succeeds iff every device has a rack, and never adds or removes keys |
| `ListMode.AppendRackHostsAborts` | ansible/inventory/netbox_inventory.py:233-234 | the device loop fails with the first device that has no rack |
| `ListMode.AppendRackHostsContents` | ansible/inventory/netbox_inventory.py:233-239 | after the device loop, every key's group has gained exactly the devices whose rack resolves and has a group with that slug, in device order; failed lookups skip only that device |
| `ListMode.RackGroupHostsFilter` | ansible/inventory/netbox_inventory.py:233-239 | the members a rack group gains are the names of the devices filtered by resolved rack group |
| `ListMode.GetInventoryList` | ansible/inventory/netbox_inventory.py:196-255 | list mode succeeds iff every manufacturer, site and role slug has a bundle and every device has a rack |
| `ListMode.ListKeys` | ansible/inventory/netbox_inventory.py:203-255 | the keys are exactly the manufacturer, site, role and rack-group slugs plus `all`, `ungrouped` and `_meta` |
| `ListMode.SyntheticGroups` | ansible/inventory/netbox_inventory.py:241-253 | `all` has every device name in order, `all_vars`, and children = manufacturer then site then role slugs with duplicates; `ungrouped` has no hosts; `_meta` holds the host-vars map |
| `ListMode.GroupVarsNeverMissing` | ansible/inventory/netbox_inventory.py:164-255 | with the bundles read from files, list mode succeeds iff every device has a rack |
| `ListMode.MetaEntry` | ansible/inventory/netbox_inventory.py:252-253 | when `host_vars` was read from the catalog's devices (:154-160), `_meta` has one key per device name and each name's bundle is the last such device's host_vars file overridden by its config context |
| `ListMode.ListEntry` | ansible/inventory/netbox_inventory.py:226-239 | any non-reserved key holds what the scope loops or the rack-group skeleton left there, with that rack group's devices appended |
| `ListMode.ManufacturerGroup` | ansible/inventory/netbox_inventory.py:206-210 | a manufacturer group not overwritten later holds the names from the device filter narrowed to that manufacturer, then any devices in a rack group of the same slug, with the manufacturer's bundle as vars |
| `ListMode.SiteGroup` | ansible/inventory/netbox_inventory.py:213-217 | a site group not overwritten later holds the names from the device filter with that site list and default allow-lists, then any devices in a rack group of the same slug, with the site's bundle as vars |
| `ListMode.RoleGroup` | ansible/inventory/netbox_inventory.py:220-224 | a role group not overwritten later holds the names from the device filter narrowed to that role, then any devices in a rack group of the same slug, with the role's bundle as vars |
| `ListMode.RackGroupGroup` | ansible/inventory/netbox_inventory.py:228-239 | a rack-group group holds exactly the devices whose rack resolves to that group, in device order, and has no vars |
| `ListMode.ScopeDevicesOfAllowListed` | ansible/inventory/netbox_inventory.py:206-224 | over allow-listed devices, a manufacturer, site or role group's devices are exactly the devices with that slug in that scope, in catalog order |
| `ListMode.NoStrayRackHosts` | ansible/inventory/netbox_inventory.py:228-239 | when every rack's group is among the fetched rack groups, a slug that is no fetched rack group's gains no rack members |
| `ListMode.RackWithoutGroup` | ansible/inventory/netbox_inventory.py:233-239 | a device whose rack has no group stays in its manufacturer, site and role groups and is in no rack group's devices |
| `HostMode.GetInventoryHost` | ansible/inventory/netbox_inventory.py:258-296 | a host not among the devices gets `{}`; a non-empty result implies the host exists, is managed, and all its bundles are loaded |
| `HostMode.Unresolved` | ansible/inventory/netbox_inventory.py:270-296 | a found host whose manufacturer or role is not allow-listed, or whose manufacturer, site or host bundle is missing, gets `{}` |
| `HostMode.Precedence` | ansible/inventory/netbox_inventory.py:278-290 | for a managed host with all bundles loaded, the keys are those of the all, manufacturer, site and host bundles; each value comes from the host bundle, else site, else manufacturer, else all |
| `HostMode.RoleVarsIgnored` | ansible/inventory/netbox_inventory.py:278-290 | role bundles never change the host-mode result |
| `Scenarios.NoRackAbortsList` | ansible/inventory/netbox_inventory.py:233-234 | a one-switch catalog whose switch has no rack makes list mode fail with that switch |
| `Scenarios.RackWithoutGroupList` | ansible/inventory/netbox_inventory.py:196-255 | with the switch in a rack without a group, list mode succeeds; group `cisco` holds `sw1` with the cisco bundle, `all` holds `sw1`, and `_meta` gives `sw1` its config context |
| `Scenarios.Sw1HostVars` | ansible/inventory/netbox_inventory.py:154-160 | `sw1`'s host-vars map is its config context over its empty host_vars file |
| `Scenarios.ModesDiverge` | ansible/inventory/netbox_inventory.py:252-290 | for the same host, host mode includes a variable from `all` that list mode's `_meta` entry lacks |

## Left out

- NetBox access (`pynetbox.api`, `_fetch_nb_endpoints`, the `nb.dcim.devices.get` re-fetch, the rack and rack-group fetches) is network I/O. The fetched records are arguments. List mode's catalog is assumed to be fetched through the default device, role and manufacturer filters; `AllowListed` states this where a lemma needs it.
- The fail-soft manufacturer fetch (`except: manufacturers = []`) belongs to the fetch and is not modelled.
- `_load_yaml_vars` is file I/O and YAML parsing. A store is a map from a file's path under the inventory directory to its bundle, and a missing file reads as `{}` (`Vars.LoadBundle`). A YAML file whose top level is not a mapping is not modelled.
- `_print_inventory` and `main` are JSON output and command-line parsing. Key order in the printed JSON is not modelled, because a map has no order.
- `_get_object_by_name` is never called by the core and is not modelled.
- The rack-group lookup `rg = _get_object_by_id(rack_groups, r.group.id)` has an unused result and cannot fail. Only the `r.group` access it implies is modelled.
- `str(device)` is modelled as the device name. Devices without a name are not modelled.
- Python's type checks and scalar-to-list coercion of filter arguments, and its keyword-argument validation, are left out. The model always passes sequences, and the optional site list is an `Option`.
- A config context that would make `dict(..., **host.config_context)` (:158) raise `TypeError` is not modelled: one with non-string keys, or one that is present but not a mapping. That error is not the `AttributeError` caught at :159, so it would abort either mode rather than fall back to the host_vars file. `ctx` is either absent or a string-keyed bundle.
- `HostMode.GetInventoryHost`: its own contract covers only the not-found case and what a non-empty result implies. The guard cases and the layer precedence are stated by `HostMode.Unresolved` and `HostMode.Precedence`.
