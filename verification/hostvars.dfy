/** The per-host variable bundles of list mode (`_read_yaml_host_vars`): each device's
    host_vars/<name> file overridden by its NetBox config context. */
module HostVars {
  import opened Wrappers
  import opened Vars
  import opened Netbox

  /** One device's bundle: the local file, overridden key by key by the config context;
      the local file alone when the record has no config context. */
  function HostBundle(d: Device, store: Store): (b: Bundle)
    ensures b.Keys == LoadBundle(store, "host_vars/" + d.name).Keys + (if d.ctx.Some? then d.ctx.value.Keys else {})
    ensures d.ctx.Some? ==> forall k :: k in d.ctx.value ==> b[k] == d.ctx.value[k]
    ensures forall k :: k in LoadBundle(store, "host_vars/" + d.name) && (d.ctx.None? || k !in d.ctx.value) ==> b[k] == LoadBundle(store, "host_vars/" + d.name)[k]
  {
    match d.ctx
    case Some(c) => Override(LoadBundle(store, "host_vars/" + d.name), c)
    case None => LoadBundle(store, "host_vars/" + d.name)
  }

  /** Device `i` is the last one in `devices` with its name. */
  predicate LastWithName(devices: seq<Device>, i: int)
    requires 0 <= i < |devices|
  {
    forall j :: i < j < |devices| ==> devices[j].name != devices[i].name
  }

  /** `host_vars`, written device by device in order, so a later device with the same name
      replaces an earlier one's entry. */
  function ReadHostVars(devices: seq<Device>, store: Store): (r: map<string, Bundle>)
    ensures r.Keys == set d | d in devices :: d.name
    decreases |devices|
  {
    if |devices| == 0 then map[]
    else
      var last := devices[|devices| - 1];
      var prefix := devices[..|devices| - 1];
      assert devices == prefix + [last];
      ReadHostVars(prefix, store)[last.name := HostBundle(last, store)]
  }

  /** The entry of each name is the bundle of the last device with that name. */
  lemma {:induction false} ReadHostVarsLast(devices: seq<Device>, store: Store, i: nat)
    requires i < |devices| && LastWithName(devices, i)
    ensures ReadHostVars(devices, store)[devices[i].name] == HostBundle(devices[i], store)
    decreases |devices|
  {
    if i < |devices| - 1 {
      var prefix := devices[..|devices| - 1];
      assert prefix[i] == devices[i];
      assert LastWithName(prefix, i) by {
        forall j | i < j < |prefix|
          ensures prefix[j].name != prefix[i].name
        {
          assert prefix[j] == devices[j];
        }
      }
      ReadHostVarsLast(prefix, store, i);
    }
  }
}
