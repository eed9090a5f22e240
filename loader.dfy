/** Batch loading: `PluginLoader` (src/loader.rs; the same chain is
    src/lib.rs:83-101).

    `load_plugins` is a `filter_map` over the source's names: an excluded name
    is skipped, a name whose `open` fails is skipped, a plugin whose
    `load_plugin` fails is skipped, and the rest are kept in order. The source
    (src/source.rs) is given by its two operations; `load_plugin` is given by
    the result it returns for each plugin, since each is a blocking round trip
    through the host (modelled in Admission). */
module Loader {
  import opened Outcome
  import opened Errors
  import opened Runtime
  import opened Proxy

  /** A `PluginSource`: its names and its `open`. */
  datatype PluginSource<D> = PluginSource(plugins: seq<string>, open: string -> Result<D, PluginError>)

  /** The order-preserving subsequence relation. */
  ghost predicate IsSubsequence<T>(a: seq<T>, b: seq<T>)
    decreases |b|
  {
    if a == [] then true
    else if b == [] then false
    else (a[0] == b[0] && IsSubsequence(a[1..], b[1..])) || IsSubsequence(a, b[1..])
  }

  /** A name survives the whole chain. */
  predicate Admits<D>(name: string, excludes: seq<string>,
                      open: string -> Result<D, PluginError>,
                      load: D -> Result<Plugin<D>, PluginError>)
  {
    name !in excludes && open(name).Ok? && load(open(name).value).Ok?
  }

  /** The names passed to `open`: those not excluded, in order. */
  function Opened(names: seq<string>, excludes: seq<string>): (r: seq<string>)
    ensures |r| <= |names|
  {
    if names == [] then []
    else if names[0] in excludes then Opened(names[1..], excludes)
    else [names[0]] + Opened(names[1..], excludes)
  }

  /** The names whose plugins end up loaded, in order. */
  function AdmittedNames<D>(names: seq<string>, excludes: seq<string>,
                            open: string -> Result<D, PluginError>,
                            load: D -> Result<Plugin<D>, PluginError>): (r: seq<string>)
    ensures |r| <= |names|
    ensures forall i :: 0 <= i < |r| ==> Admits(r[i], excludes, open, load)
  {
    if names == [] then []
    else if Admits(names[0], excludes, open, load) then [names[0]] + AdmittedNames(names[1..], excludes, open, load)
    else AdmittedNames(names[1..], excludes, open, load)
  }

  /** The proxies the chain collects: for each name in turn, the one `load`
      returns after a successful `open`, unless the name is excluded or
      either step fails. */
  function Admitted<D>(names: seq<string>, excludes: seq<string>,
                       open: string -> Result<D, PluginError>,
                       load: D -> Result<Plugin<D>, PluginError>): seq<Plugin<D>>
  {
    if names == [] then []
    else
      var rest := Admitted(names[1..], excludes, open, load);
      if names[0] in excludes then rest
      else match open(names[0])
        case Err(_) => rest
        case Ok(d) =>
          match load(d)
          case Err(_) => rest
          case Ok(p) => [p] + rest
  }

  /** The proxies are exactly those of the admitted names, one each, in order. */
  lemma {:induction false} AdmittedMatchesNames<D>(names: seq<string>, excludes: seq<string>,
                                                   open: string -> Result<D, PluginError>,
                                                   load: D -> Result<Plugin<D>, PluginError>)
    ensures var ns := AdmittedNames(names, excludes, open, load);
            var ps := Admitted(names, excludes, open, load);
            |ps| == |ns| &&
            forall i :: 0 <= i < |ns| ==> ps[i] == load(open(ns[i]).value).value
  {
    if names != [] {
      AdmittedMatchesNames(names[1..], excludes, open, load);
    }
  }

  /** When `load` is `load_plugin`, which hands out the proxy for exactly the
      plugin it was given (src/runtime.rs:162-168), each proxy collected is the
      one for its admitted name's opened plugin. */
  lemma AdmittedAreTheirPlugins<D>(names: seq<string>, excludes: seq<string>,
                                   open: string -> Result<D, PluginError>,
                                   load: D -> Result<Plugin<D>, PluginError>)
    requires forall d :: load(d).Ok? ==> load(d).value == Plugin(d)
    ensures var ns := AdmittedNames(names, excludes, open, load);
            var ps := Admitted(names, excludes, open, load);
            |ps| == |ns| &&
            forall i :: 0 <= i < |ns| ==> ps[i] == Plugin(open(ns[i]).value)
  {
    AdmittedMatchesNames(names, excludes, open, load);
    var ns := AdmittedNames(names, excludes, open, load);
    forall i | 0 <= i < |ns|
      ensures Admitted(names, excludes, open, load)[i] == Plugin(open(ns[i]).value)
    {
      assert Admits(ns[i], excludes, open, load);
      LoadsItsOwn(load, open(ns[i]).value);
    }
  }

  /** One instance of the hypothesis above, for a plugin given as a value of `D`. */
  lemma LoadsItsOwn<D>(load: D -> Result<Plugin<D>, PluginError>, d: D)
    requires forall x :: load(x).Ok? ==> load(x).value == Plugin(x)
    ensures load(d).Ok? ==> load(d).value == Plugin(d)
  {
  }

  /** Never more proxies than names. */
  lemma AdmittedNoLonger<D>(names: seq<string>, excludes: seq<string>,
                            open: string -> Result<D, PluginError>,
                            load: D -> Result<Plugin<D>, PluginError>)
    ensures |Admitted(names, excludes, open, load)| <= |names|
  {
    AdmittedMatchesNames(names, excludes, open, load);
  }

  /** A name is admitted exactly when it is listed, not excluded, opens and loads. */
  lemma {:induction false} AdmittedNamesMembership<D>(names: seq<string>, excludes: seq<string>,
                                                      open: string -> Result<D, PluginError>,
                                                      load: D -> Result<Plugin<D>, PluginError>,
                                                      name: string)
    ensures name in AdmittedNames(names, excludes, open, load) <==>
            name in names && Admits(name, excludes, open, load)
  {
    if names != [] {
      AdmittedNamesMembership(names[1..], excludes, open, load, name);
      assert names == [names[0]] + names[1..];
    }
  }

  /** The admitted names are an order-preserving subsequence of the source's names. */
  lemma {:induction false} AdmittedNamesSubsequence<D>(names: seq<string>, excludes: seq<string>,
                                                       open: string -> Result<D, PluginError>,
                                                       load: D -> Result<Plugin<D>, PluginError>)
    ensures IsSubsequence(AdmittedNames(names, excludes, open, load), names)
  {
    if names != [] {
      AdmittedNamesSubsequence(names[1..], excludes, open, load);
      var rest := AdmittedNames(names[1..], excludes, open, load);
      if Admits(names[0], excludes, open, load) {
        assert ([names[0]] + rest)[1..] == rest;
      }
    }
  }

  /** No excluded name is ever opened, and every other listed name is. */
  lemma {:induction false} OpenedMembership(names: seq<string>, excludes: seq<string>, name: string)
    ensures name in Opened(names, excludes) <==> name in names && name !in excludes
  {
    if names != [] {
      OpenedMembership(names[1..], excludes, name);
      assert names == [names[0]] + names[1..];
    }
  }

  /** A name that fails at any step drops only itself: what the rest of the
      batch yields is unaffected, before and after it. */
  lemma {:induction false} AdmittedAppend<D>(xs: seq<string>, ys: seq<string>, excludes: seq<string>,
                                             open: string -> Result<D, PluginError>,
                                             load: D -> Result<Plugin<D>, PluginError>)
    ensures Admitted(xs + ys, excludes, open, load) ==
            Admitted(xs, excludes, open, load) + Admitted(ys, excludes, open, load)
  {
    if xs == [] {
      assert xs + ys == ys;
    } else {
      assert (xs + ys)[1..] == xs[1..] + ys;
      AdmittedAppend(xs[1..], ys, excludes, open, load);
    }
  }

  /** `Opened` also goes name by name. */
  lemma {:induction false} OpenedAppend(xs: seq<string>, ys: seq<string>, excludes: seq<string>)
    ensures Opened(xs + ys, excludes) == Opened(xs, excludes) + Opened(ys, excludes)
  {
    if xs == [] {
      assert xs + ys == ys;
    } else {
      assert (xs + ys)[1..] == xs[1..] + ys;
      OpenedAppend(xs[1..], ys, excludes);
    }
  }

  /** A name whose `open` fails, or whose `load_plugin` fails, yields nothing. */
  lemma FailingNameYieldsNothing<D>(name: string, excludes: seq<string>,
                                    open: string -> Result<D, PluginError>,
                                    load: D -> Result<Plugin<D>, PluginError>)
    requires !Admits(name, excludes, open, load)
    ensures Admitted([name], excludes, open, load) == []
  {
  }

  class PluginLoader<D, C, O, E> {
    const source: PluginSource<D>
    var runtime: PluginRuntime?<D, C, O, E>

    /** `new` (src/loader.rs:18-23). */
    constructor (source: PluginSource<D>, runtime: PluginRuntime<D, C, O, E>)
      ensures this.source == source && this.runtime == runtime
    {
      this.source := source;
      this.runtime := runtime;
    }

    /** `Drop` (src/loader.rs:10-15): takes the runtime out, which must be
        there (`unwrap`), and drops it, running the runtime's own `Drop`. */
    method Drop()
      requires runtime != null && runtime.Valid()
      modifies this, runtime`callSender, runtime`resultSender, runtime`subscribers
      ensures runtime == null
      ensures old(runtime).Valid()
      ensures !old(runtime).callSender && !old(runtime).resultSender && !old(runtime).subscribers
    {
      var rt := runtime;
      runtime := null;
      rt.Drop();
    }

    /** `load_plugins` (src/loader.rs:25-43): walks the source's names once,
        in order; `openedNames` records the names handed to `open`. */
    method LoadPlugins(excludes: seq<string>, load: D -> Result<Plugin<D>, PluginError>)
      returns (plugins: seq<Plugin<D>>, openedNames: seq<string>)
      requires runtime != null
      ensures plugins == Admitted(source.plugins, excludes, source.open, load)
      ensures openedNames == Opened(source.plugins, excludes)
    {
      var names := source.plugins;
      plugins, openedNames := [], [];
      for i := 0 to |names|
        invariant plugins == Admitted(names[..i], excludes, source.open, load)
        invariant openedNames == Opened(names[..i], excludes)
      {
        assert names[..i + 1] == names[..i] + [names[i]];
        AdmittedAppend(names[..i], [names[i]], excludes, source.open, load);
        OpenedAppend(names[..i], [names[i]], excludes);
        var item := names[i];
        if item in excludes {
          continue;
        }
        openedNames := openedNames + [item];
        var plugin := source.open(item);
        if plugin.Err? {
          continue;
        }
        var loaded := load(plugin.value);
        if loaded.Err? {
          continue;
        }
        plugins := plugins + [loaded.value];
      }
      assert names[..|names|] == names;
    }
  }

  /** The source of the tests (src/test_utils.rs:25-36): one plugin, "test",
      whose `open` always succeeds. */
  function TestSource(): PluginSource<string> {
    PluginSource(["test"], (name: string) => Ok(name))
  }

  /** src/loader.rs:52-69: with no excludes, the one plugin is loaded. */
  lemma LoadsTheOnePlugin()
    ensures |Admitted(TestSource().plugins, [], TestSource().open, (d: string) => Ok(Plugin(d)))| == 1
  {
  }

  /** src/loader.rs:71-87: excluding "test" loads nothing and opens nothing. */
  lemma ExcludingTheOnePlugin()
    ensures Admitted(TestSource().plugins, ["test"], TestSource().open, (d: string) => Ok(Plugin(d))) == []
    ensures Opened(TestSource().plugins, ["test"]) == []
  {
  }
}
