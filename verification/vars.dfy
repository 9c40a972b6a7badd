/** Variable bundles: the key/value mappings loaded from group_vars/ and host_vars/ files
    or supplied as a device's config context, and how they are layered. */
module Vars {
  import opened Wrappers

  /** A YAML/JSON value. */
  datatype Value =
    | Null
    | Bool(b: bool)
    | Int(i: int)
    | Str(s: string)
    | List(items: seq<Value>)
    | Dict(entries: map<string, Value>)

  /** A variable bundle, keyed by variable name. */
  type Bundle = map<string, Value>

  /** The local variable store: bundle files by name. A name that is not a key stands for a
      missing file, which reads as the empty bundle. */
  type Store = map<string, Bundle>

  /** Reads a bundle from the store; a missing file is never an error. */
  function LoadBundle(store: Store, name: string): Bundle
  {
    if name in store then store[name] else map[]
  }

  /** `top` laid over `base`, as Python's `dict(base, **top)` and `base.update(top)` do:
      every key of either is present and `top` wins on the keys they share. */
  function Override(base: Bundle, top: Bundle): (r: Bundle)
    ensures r.Keys == base.Keys + top.Keys
    ensures forall k :: k in top ==> r[k] == top[k]
    ensures forall k :: k in base && k !in top ==> r[k] == base[k]
  {
    base + top
  }

  /** The value a key takes in a stack of layers, listed bottom first: the topmost layer
      that defines the key decides it. */
  function Resolve(stack: seq<Bundle>, k: string): Option<Value>
    decreases |stack|
  {
    if |stack| == 0 then None
    else if k in stack[|stack| - 1] then Some(stack[|stack| - 1][k])
    else Resolve(stack[..|stack| - 1], k)
  }

  /** Starting from an empty bundle, applies the layers bottom first, each overriding the
      keys it defines (a sequence of `dict.update` calls). */
  function Flatten(stack: seq<Bundle>): (r: Bundle)
    ensures forall k :: k in r <==> Resolve(stack, k).Some?
    ensures forall k :: k in r ==> r[k] == Resolve(stack, k).value
    decreases |stack|
  {
    if |stack| == 0 then map[]
    else Override(Flatten(stack[..|stack| - 1]), stack[|stack| - 1])
  }

  /** The loaded bundles: group_vars/all, one per manufacturer, site and role slug, and
      one per host name (the `all_vars`, `manufacturer_vars`, `site_vars`, `role_vars` and
      `host_vars` globals). */
  datatype Layers = Layers(
    allVars: Bundle,
    manufacturerVars: map<string, Bundle>,
    siteVars: map<string, Bundle>,
    roleVars: map<string, Bundle>,
    hostVars: map<string, Bundle>)
}
