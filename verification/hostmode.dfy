/** Host mode (`get_inventory_host`): one host's variables, layered `all`, then its
    manufacturer's, then its site's, then its own. Every way the source's `try` block can
    fail yields the empty bundle. */
module HostMode {
  import opened Wrappers
  import opened Vars
  import opened Netbox

  /** The host is managed: manufacturer and role are allow-listed. */
  predicate Managed(d: Device)
  {
    d.manufacturerSlug in Manufacturers && d.roleSlug in DeviceRoles
  }

  /** Every bundle the merge indexes is loaded. */
  predicate LayersPresent(d: Device, host: string, layers: Layers)
  {
    d.manufacturerSlug in layers.manufacturerVars && d.siteSlug in layers.siteVars && host in layers.hostVars
  }

  /** The layers applied to a managed host, bottom first. Role bundles are not among them. */
  function HostStack(d: Device, host: string, layers: Layers): seq<Bundle>
    requires LayersPresent(d, host, layers)
  {
    [layers.allVars, layers.manufacturerVars[d.manufacturerSlug], layers.siteVars[d.siteSlug], layers.hostVars[host]]
  }

  function GetInventoryHost(host: string, devices: seq<Device>, layers: Layers): (r: Bundle)
    ensures (forall i :: 0 <= i < |devices| ==> devices[i].name != host) ==> r == map[]
    ensures r != map[] ==>
      exists i :: 0 <= i < |devices| && devices[i].name == host && Managed(devices[i])
        && LayersPresent(devices[i], host, layers)
  {
    match GetDeviceByName(devices, host)
    case None => map[]
    case Some(d) =>
      if d.manufacturerSlug !in Manufacturers then map[]
      else if d.roleSlug !in DeviceRoles then map[]
      else if !LayersPresent(d, host, layers) then map[]
      else Flatten(HostStack(d, host, layers))
  }

  /** A host that is found but not managed, or whose bundles are not all loaded, gets the
      empty bundle. */
  lemma Unresolved(host: string, devices: seq<Device>, layers: Layers, i: nat)
    requires i < |devices| && devices[i].name == host
    requires forall j :: 0 <= j < i ==> devices[j].name != host
    requires !Managed(devices[i]) || !LayersPresent(devices[i], host, layers)
    ensures GetInventoryHost(host, devices, layers) == map[]
  {
    var r := GetDeviceByName(devices, host);
    assert r == Some(devices[i]);
  }

  /** For a managed host with every bundle loaded, each variable comes from the highest
      layer defining it: host over site over manufacturer over `all`. */
  lemma {:induction false} Precedence(host: string, devices: seq<Device>, layers: Layers, i: nat, k: string)
    requires i < |devices| && devices[i].name == host
    requires forall j :: 0 <= j < i ==> devices[j].name != host
    requires Managed(devices[i]) && LayersPresent(devices[i], host, layers)
    ensures var r := GetInventoryHost(host, devices, layers);
            var d := devices[i];
            var all, mv, sv, hv := layers.allVars, layers.manufacturerVars[d.manufacturerSlug],
                                   layers.siteVars[d.siteSlug], layers.hostVars[host];
            && (k in r <==> k in all || k in mv || k in sv || k in hv)
            && (k in hv ==> r[k] == hv[k])
            && (k !in hv && k in sv ==> r[k] == sv[k])
            && (k !in hv && k !in sv && k in mv ==> r[k] == mv[k])
            && (k !in hv && k !in sv && k !in mv && k in all ==> r[k] == all[k])
  {
    var d := devices[i];
    assert GetDeviceByName(devices, host) == Some(d);
    var all, mv, sv, hv := layers.allVars, layers.manufacturerVars[d.manufacturerSlug],
                           layers.siteVars[d.siteSlug], layers.hostVars[host];
    var stack := HostStack(d, host, layers);
    assert stack[..3] == [all, mv, sv];
    assert [all, mv, sv][..2] == [all, mv];
    assert [all, mv][..1] == [all];
    assert GetInventoryHost(host, devices, layers) == Flatten(stack);
    assert Resolve(stack, k) == if k in hv then Some(hv[k]) else Resolve([all, mv, sv], k);
    assert Resolve([all, mv, sv], k) == if k in sv then Some(sv[k]) else Resolve([all, mv], k);
    assert Resolve([all, mv], k) == if k in mv then Some(mv[k]) else Resolve([all], k);
    assert Resolve([all], k) == if k in all then Some(all[k]) else None;
  }

  /** Role bundles never influence host mode. */
  lemma RoleVarsIgnored(host: string, devices: seq<Device>, layers: Layers, roleVars: map<string, Bundle>)
    ensures GetInventoryHost(host, devices, layers) == GetInventoryHost(host, devices, layers.(roleVars := roleVars))
  {
  }
}
