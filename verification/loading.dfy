/** The variable files read for one run (`_read_yaml_group_vars` and `_read_yaml_host_vars`):
    files are looked up in a store keyed by their path under the inventory directory. */
module Loading {
  import opened Vars
  import opened Netbox
  import opened HostVars

  /** One bundle per slug, read from group_vars/<slug>; a missing file reads as empty. */
  function ReadGroupVars(slugs: seq<string>, store: Store): (r: map<string, Bundle>)
    ensures r.Keys == set s | s in slugs
    ensures forall s :: s in slugs ==> r[s] == LoadBundle(store, "group_vars/" + s)
    decreases |slugs|
  {
    if |slugs| == 0 then map[]
    else
      assert forall s :: s in slugs <==> s == slugs[|slugs| - 1] || s in slugs[..|slugs| - 1];
      ReadGroupVars(slugs[..|slugs| - 1], store)[slugs[|slugs| - 1] := LoadBundle(store, "group_vars/" + slugs[|slugs| - 1])]
  }

  /** All bundles of a run: group_vars/all, one per fetched manufacturer, site and role
      slug, and one per device name. */
  function ReadLayers(cat: Catalog, store: Store): (l: Layers)
    ensures l.allVars == LoadBundle(store, "group_vars/all")
    ensures l.manufacturerVars.Keys == set s | s in ManufacturerSlugs(cat.manufacturers)
    ensures l.siteVars.Keys == set s | s in SiteSlugs(cat.sites)
    ensures l.roleVars.Keys == set s | s in RoleSlugs(cat.roles)
    ensures forall s :: s in l.manufacturerVars ==> l.manufacturerVars[s] == LoadBundle(store, "group_vars/" + s)
    ensures forall s :: s in l.siteVars ==> l.siteVars[s] == LoadBundle(store, "group_vars/" + s)
    ensures forall s :: s in l.roleVars ==> l.roleVars[s] == LoadBundle(store, "group_vars/" + s)
    ensures l.hostVars == ReadHostVars(cat.devices, store)
  {
    Layers(LoadBundle(store, "group_vars/all"),
           ReadGroupVars(ManufacturerSlugs(cat.manufacturers), store),
           ReadGroupVars(SiteSlugs(cat.sites), store),
           ReadGroupVars(RoleSlugs(cat.roles), store),
           ReadHostVars(cat.devices, store))
  }
}
