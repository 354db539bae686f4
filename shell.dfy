/** The `shell` paster command up to the point where the interactive console
    starts: choosing the config file, naming the project's package and its
    three modules, importing them, and assembling the console's namespace and
    banner. The loaded application, the routes mapper and the test client are
    represented by symbolic values. */
module Shell {
  import opened Outcomes
  import opened Text

  const DefaultConfigFile := "development.ini"
  const LocatorScheme := "config:"

  /** The usage error for a missing default config file; `usage` is the text
      of parser.get_usage(). */
  function MissingConfigMessage(usage: string): (m: string)
    ensures StartsWith(m, usage)
  {
    var m := usage + "Error: CONFIG_FILE not found at: ./" + DefaultConfigFile + "\nPlease specify a CONFIG_FILE";
    assert m[..|usage|] == usage;
    m
  }

  /** The config file: with no argument `development.ini`, which must exist;
      with an argument, that argument whether or not it exists. */
  function ChooseConfig(args: seq<string>, isFile: string -> bool, usage: string): (r: Result<string>)
    ensures r.Err? <==> |args| == 0 && !isFile(DefaultConfigFile)
    ensures r.Err? ==> r.error.BadCommand? && StartsWith(r.error.message, usage)
    ensures r.Ok? ==> r.value == if |args| == 0 then DefaultConfigFile else args[0]
  {
    if |args| == 0 then
      if isFile(DefaultConfigFile) then Ok(DefaultConfigFile) else Err(BadCommand(MissingConfigMessage(usage)))
    else Ok(args[0])
  }

  /** 'config:%s' % config_file: the locator paste.deploy loads from. */
  function Locator(file: string): (loc: string)
    ensures StartsWith(loc, LocatorScheme)
    ensures loc[|LocatorScheme|..] == file
  {
    var loc := LocatorScheme + file;
    assert loc[..|LocatorScheme|] == LocatorScheme;
    assert loc[|LocatorScheme|..] == file;
    loc
  }

  /** The file named by a locator. */
  function LocatorFile(loc: string): string
    requires StartsWith(loc, LocatorScheme)
  {
    loc[|LocatorScheme|..]
  }

  /** The file can be read back from its locator, so distinct files give
      distinct locators. */
  lemma LocatorRoundTrip(file: string)
    ensures LocatorFile(Locator(file)) == file
  {
    assert (LocatorScheme + file)[|LocatorScheme|..] == file;
  }

  /** here_dir.split(os.path.sep)[-1].lower(): the last segment of the working
      directory, lower-cased. */
  function PackageName(cwd: string): (pkg: string)
    ensures '/' !in pkg
    ensures |pkg| <= |cwd| && pkg == Lower(cwd[|cwd| - |pkg|..])
    ensures |pkg| < |cwd| ==> cwd[|cwd| - |pkg| - 1] == '/'
    ensures forall i :: 0 <= i < |pkg| ==> !('A' <= pkg[i] <= 'Z')
  {
    var segment := LastSegment(cwd, '/');
    var pkg := Lower(segment);
    assert '/' !in pkg by {
      forall i | 0 <= i < |pkg| ensures pkg[i] != '/' {
        assert segment[i] in segment;
      }
    }
    LowerIsLower(segment);
    pkg
  }

  /** A working directory `<parent>/<project>` names the package `project`,
      lower-cased: `/home/me/MyApp` gives `myapp`. */
  lemma PackageNameOfProjectDir(parent: string, project: string)
    requires '/' !in project
    ensures PackageName(parent + "/" + project) == Lower(project)
  {
    LastSegmentAfterSep(parent, project, '/');
  }

  function RoutingModule(pkg: string): string { pkg + ".config.routing" }
  function ModelsModule(pkg: string): string { pkg + ".models" }
  function HelpersModule(pkg: string): string { pkg + ".lib.helpers" }

  /** The three modules imported, in import order. */
  function ModuleNames(pkg: string): (mods: seq<string>)
    ensures |mods| == 3
  {
    [RoutingModule(pkg), ModelsModule(pkg), HelpersModule(pkg)]
  }

  /** Every imported module lies inside the project's package, and the three
      are distinct. */
  lemma ModuleNamesInPackage(pkg: string)
    ensures ModuleNames(pkg) == [pkg + ".config.routing", pkg + ".models", pkg + ".lib.helpers"]
    ensures forall k :: 0 <= k < 3 ==> StartsWith(ModuleNames(pkg)[k], pkg + ".")
    ensures forall j, k :: 0 <= j < k < 3 ==> ModuleNames(pkg)[j] != ModuleNames(pkg)[k]
  {
    var mods := ModuleNames(pkg);
    assert mods[0] == (pkg + ".") + "config.routing";
    assert mods[1] == (pkg + ".") + "models";
    assert mods[2] == (pkg + ".") + "lib.helpers";
    forall k | 0 <= k < 3 ensures StartsWith(mods[k], pkg + ".") {
      assert mods[k][..|pkg| + 1] == pkg + ".";
    }
  }

  /** The object test_app.get('/').g evaluated to; `truthy` is its Python
      truth value. */
  datatype GlobalsObject = GlobalsObject(id: nat, truthy: bool)

  /** `if global_obj:` */
  predicate Truthy(g: Option<GlobalsObject>)
    ensures Truthy(g) ==> g.Some?
  {
    g.Some? && g.value.truthy
  }

  /** What the console's namespace binds, symbolically. */
  datatype Value =
    | Str(s: string)
    | Module(dotted: string)
    | RoutesMapper(routing: string)          // make_map() of the routing module
    | WsgiApp(locator: string, relativeTo: string)  // loadapp(locator, relative_to=here_dir)
    | TestApp(wrapped: Value)                // paste.fixture.TestApp(wsgiapp)
    | Globals(obj: GlobalsObject)

  /** The namespace handed to the console; `g` is the globals object when it
      is bound. */
  function Namespace(locator: string, cwd: string, pkg: string, g: Option<GlobalsObject>): (ns: map<string, Value>)
    ensures "__name__" in ns && ns["__name__"] == Str("pylons-admin")
    ensures "wsgiapp" in ns && "app" in ns && ns["app"] == TestApp(ns["wsgiapp"])
    ensures ns["wsgiapp"] == WsgiApp(locator, cwd)
    ensures "g" in ns <==> g.Some?
  {
    var wsgiapp := WsgiApp(locator, cwd);
    var core := map[
      "__name__" := Str("pylons-admin"),
      "model" := Module(ModelsModule(pkg)),
      "mapper" := RoutesMapper(RoutingModule(pkg)),
      "wsgiapp" := wsgiapp,
      "app" := TestApp(wsgiapp),
      "h" := Module(HelpersModule(pkg))];
    if g.Some? then core["g" := Globals(g.value)] else core
  }

  /** The namespace always binds `__name__`, `model`, `mapper`, `wsgiapp`,
      `app` and `h`, binds `g` exactly when a globals object is given, and
      binds nothing else. */
  lemma NamespaceBindings(locator: string, cwd: string, pkg: string, g: Option<GlobalsObject>)
    ensures var ns := Namespace(locator, cwd, pkg, g);
      && {"__name__", "model", "mapper", "wsgiapp", "app", "h"} <= ns.Keys
      && ("g" in ns <==> g.Some?)
      && ns.Keys <= {"__name__", "model", "mapper", "wsgiapp", "app", "h", "g"}
      && ns["mapper"] == RoutesMapper(ModuleNames(pkg)[0])
      && ns["model"] == Module(ModuleNames(pkg)[1]) && ns["h"] == Module(ModuleNames(pkg)[2])
      && (g.Some? ==> ns["g"] == Globals(g.value))
  {
  }

  /** One '  %-10s -  %s' line of the banner. */
  datatype BannerEntry = BannerEntry(name: string, description: string)

  const MapperEntry := BannerEntry("mapper", "Routes mapper object")
  const HelperEntry := BannerEntry("h", "Helper object")
  const GlobalsEntry := BannerEntry("g", "Globals object")
  const ModelEntry := BannerEntry("model", "Models from models package")
  const WsgiAppEntry := BannerEntry("wsgiapp", "This projects WSGI App instance")
  const AppEntry := BannerEntry("app", "paste.fixture wrapped around wsgiapp")

  /** The objects the banner lists, in order; `g` only when it is bound. */
  function BannerEntries(hasGlobals: bool): (entries: seq<BannerEntry>)
    ensures |entries| == if hasGlobals then 6 else 5
    ensures entries[..2] == [MapperEntry, HelperEntry]
    ensures hasGlobals ==> entries[2] == GlobalsEntry
    ensures entries[|entries| - 3..] == [ModelEntry, WsgiAppEntry, AppEntry]
  {
    [MapperEntry, HelperEntry] + (if hasGlobals then [GlobalsEntry] else []) + [ModelEntry, WsgiAppEntry, AppEntry]
  }

  function BannerLine(e: BannerEntry): (line: string)
    ensures StartsWith(line, "  " + PadRight(e.name, 10))
  {
    var line := "  " + PadRight(e.name, 10) + " -  " + e.description + "\n";
    assert line[..|"  " + PadRight(e.name, 10)|] == "  " + PadRight(e.name, 10);
    line
  }

  function Lines(entries: seq<BannerEntry>): (text: string)
    ensures entries != [] ==> StartsWith(text, BannerLine(entries[0]))
  {
    if entries == [] then "" else BannerLine(entries[0]) + Lines(entries[1..])
  }

  /** Appending an entry appends its line. */
  lemma {:induction false} LinesSnoc(entries: seq<BannerEntry>, e: BannerEntry)
    ensures Lines(entries + [e]) == Lines(entries) + BannerLine(e)
  {
    if entries == [] {
      assert [] + [e] == [e];
    } else {
      assert (entries + [e])[1..] == entries[1..] + [e];
      LinesSnoc(entries[1..], e);
    }
  }

  const ShellTitle := "Pylons Interactive Shell\nPython "
  const ObjectsTitle := "Additional Objects:\n"

  /** The banner's heading: the shell's title with the Python version, then
      the heading of the object list. */
  function BannerHead(version: string): (head: string)
    ensures StartsWith(head, ShellTitle)
    ensures EndsWith(head, ObjectsTitle)
    ensures |head| == |ShellTitle| + |version| + 2 + |ObjectsTitle|
    ensures head[|ShellTitle|..|ShellTitle| + |version|] == version
    ensures head[|ShellTitle| + |version|..|ShellTitle| + |version| + 2] == "\n\n"
  {
    var head := ShellTitle + version + "\n\n" + ObjectsTitle;
    assert head[|ShellTitle|..|ShellTitle| + |version|] == version;
    assert head[|ShellTitle| + |version|..|ShellTitle| + |version| + 2] == "\n\n";
    assert head[..|ShellTitle|] == ShellTitle;
    assert head[|head| - |ObjectsTitle|..] == ObjectsTitle;
    head
  }

  /** The banner: a heading naming the Python version, then one line per
      listed object. */
  function Banner(version: string, hasGlobals: bool): (banner: string)
    ensures StartsWith(banner, BannerHead(version))
    ensures EndsWith(banner, BannerLine(AppEntry))
  {
    var head := BannerHead(version);
    var entries := BannerEntries(hasGlobals);
    LastLineLast(head, entries);
    head + Lines(entries)
  }

  /** A head followed by the lines of some entries starts with the head and
      ends with the last entry's line. */
  lemma LastLineLast(head: string, entries: seq<BannerEntry>)
    requires entries != []
    ensures StartsWith(head + Lines(entries), head)
    ensures EndsWith(head + Lines(entries), BannerLine(entries[|entries| - 1]))
  {
    var init := entries[..|entries| - 1];
    var last := entries[|entries| - 1];
    assert entries == init + [last];
    LinesSnoc(init, last);
    Affixes(head, Lines(init), BannerLine(last));
  }

  lemma Affixes(head: string, middle: string, tail: string)
    ensures StartsWith(head + (middle + tail), head)
    ensures EndsWith(head + (middle + tail), tail)
  {
    var text := head + (middle + tail);
    assert text[..|head|] == head;
    assert text[|text| - |tail|..] == tail;
  }

  /** The names bound in every namespace besides `__name__`. */
  const ObjectNames: set<string> := {"mapper", "h", "model", "wsgiapp", "app"}

  lemma EntryNames(hasGlobals: bool)
    ensures (set e | e in BannerEntries(hasGlobals) :: e.name) == ObjectNames + (if hasGlobals then {"g"} else {})
  {
    var entries := BannerEntries(hasGlobals);
    if hasGlobals {
      assert entries == [MapperEntry, HelperEntry, GlobalsEntry, ModelEntry, WsgiAppEntry, AppEntry];
    } else {
      assert entries == [MapperEntry, HelperEntry, ModelEntry, WsgiAppEntry, AppEntry];
    }
  }

  lemma NamespaceKeys(locator: string, cwd: string, pkg: string, g: Option<GlobalsObject>)
    ensures Namespace(locator, cwd, pkg, g).Keys == {"__name__"} + ObjectNames + (if g.Some? then {"g"} else {})
  {
  }

  lemma NameNotAnObject(hasGlobals: bool)
    ensures "__name__" !in ObjectNames + (if hasGlobals then {"g"} else {})
  {
    assert forall n | n in ObjectNames + {"g"} :: |n| < 8;
  }

  /** Removing `name` from a set that holds it besides `others` gives `others`. */
  lemma RemoveAdded(name: string, others: set<string>)
    requires name !in others
    ensures ({name} + others) - {name} == others
  {
  }

  /** The banner lists exactly the namespace's names other than `__name__`. */
  lemma BannerListsNamespace(locator: string, cwd: string, pkg: string, g: Option<GlobalsObject>)
    ensures (set e | e in BannerEntries(g.Some?) :: e.name) == Namespace(locator, cwd, pkg, g).Keys - {"__name__"}
  {
    var others := ObjectNames + (if g.Some? then {"g"} else {});
    EntryNames(g.Some?);
    NamespaceKeys(locator, cwd, pkg, g);
    NameNotAnObject(g.Some?);
    assert {"__name__"} + ObjectNames + (if g.Some? then {"g"} else {}) == {"__name__"} + others;
    RemoveAdded("__name__", others);
  }

  /** The banner mentions `g` exactly when `g` is bound. */
  lemma GlobalsListedIffBound(locator: string, cwd: string, pkg: string, g: Option<GlobalsObject>)
    ensures (GlobalsEntry in BannerEntries(g.Some?)) <==> "g" in Namespace(locator, cwd, pkg, g)
  {
    if g.Some? {
      assert GlobalsEntry == BannerEntries(g.Some?)[2];
    } else {
      assert GlobalsEntry !in BannerEntries(g.Some?) by {
        forall e | e in BannerEntries(false) ensures e.name != "g" {}
      }
    }
  }

  /** What the command sets up before the console takes over. */
  datatype ShellSetup = ShellSetup(
    configFile: string,
    locator: string,
    packageName: string,
    imported: seq<string>,          // the modules imported, in order
    namespace: map<string, Value>,
    banner: string,
    pushedGlobals: Option<GlobalsObject>)  // what pylons.g.push_object received

  /** The step that appends a line to a partly built banner keeps it equal to
      the head followed by the lines of the entries shown so far. */
  lemma AppendBannerLine(head: string, shown: seq<BannerEntry>, e: BannerEntry)
    ensures head + Lines(shown) + BannerLine(e) == head + Lines(shown + [e])
  {
    LinesSnoc(shown, e);
  }

  /** The import loop: the modules are imported in order, and the first one
      that cannot be imported raises ImportError naming it. */
  method ImportAll(packages: seq<string>, importable: set<string>) returns (r: Result<seq<string>>)
    ensures r.Ok? <==> forall k :: 0 <= k < |packages| ==> packages[k] in importable
    ensures r.Ok? ==> r.value == packages
    ensures r.Err? ==> exists k :: 0 <= k < |packages| && r.error == ImportError(packages[k]) &&
                                   packages[k] !in importable && forall j :: 0 <= j < k ==> packages[j] in importable
  {
    var imported: seq<string> := [];
    var i := 0;
    while i < |packages|
      invariant 0 <= i <= |packages|
      invariant imported == packages[..i]
      invariant forall j :: 0 <= j < i ==> packages[j] in importable
    {
      if packages[i] !in importable {
        return Err(ImportError(packages[i]));
      }
      imported := imported + [packages[i]];
      i := i + 1;
    }
    assert imported == packages;
    return Ok(imported);
  }

  /** The `locs` updates: `__name__`, then the five objects, then `g` when
      the globals object is truthy. */
  method BuildNamespace(configName: string, hereDir: string, pkgName: string, globalObj: Option<GlobalsObject>)
    returns (locs: map<string, Value>)
    ensures locs == Namespace(configName, hereDir, pkgName, if Truthy(globalObj) then globalObj else None)
  {
    var wsgiapp := WsgiApp(configName, hereDir);
    locs := map["__name__" := Str("pylons-admin")];
    locs := locs["model" := Module(ModelsModule(pkgName))]["mapper" := RoutesMapper(RoutingModule(pkgName))]
                ["wsgiapp" := wsgiapp]["app" := TestApp(wsgiapp)]["h" := Module(HelpersModule(pkgName))];
    if Truthy(globalObj) {
      locs := locs["g" := Globals(globalObj.value)];
    }
  }

  /** One `banner += "  %-10s -  %s\n" % (name, description)` step: a banner
      made of the head and the lines of `shown` gets the line of `e`. */
  method AppendLine(banner: string, ghost head: string, ghost shown: seq<BannerEntry>, e: BannerEntry)
    returns (extended: string)
    requires banner == head + Lines(shown)
    ensures extended == banner + BannerLine(e)
    ensures extended == head + Lines(shown + [e])
  {
    extended := banner + BannerLine(e);
    AppendBannerLine(head, shown, e);
  }

  /** The entries in the order the `banner +=` steps append them. */
  lemma EntriesInAppendOrder(hasGlobals: bool)
    ensures BannerEntries(hasGlobals)
         == (if hasGlobals then [MapperEntry, HelperEntry] + [GlobalsEntry] else [MapperEntry, HelperEntry])
            + [ModelEntry] + [WsgiAppEntry] + [AppEntry]
  {
  }

  /** The `banner +=` steps. */
  method BuildBanner(version: string, showGlobals: bool) returns (banner: string)
    ensures banner == Banner(version, showGlobals)
  {
    var head := BannerHead(version);
    banner := head;
    assert banner == head + Lines([]);
    banner := AppendLine(banner, head, [], MapperEntry);
    assert [] + [MapperEntry] == [MapperEntry];
    banner := AppendLine(banner, head, [MapperEntry], HelperEntry);
    assert [MapperEntry] + [HelperEntry] == [MapperEntry, HelperEntry];
    ghost var shown := [MapperEntry, HelperEntry];
    if showGlobals {
      banner := AppendLine(banner, head, shown, GlobalsEntry);
      shown := shown + [GlobalsEntry];
    }
    banner := AppendLine(banner, head, shown, ModelEntry);
    banner := AppendLine(banner, head, shown + [ModelEntry], WsgiAppEntry);
    banner := AppendLine(banner, head, shown + [ModelEntry] + [WsgiAppEntry], AppEntry);
    EntriesInAppendOrder(showGlobals);
  }

  /** ShellCommand.command, from the choice of config file to the assembled
      namespace and banner. `isFile` stands for os.path.isfile, `cwd` for
      os.getcwd(), `importable` for the modules __import__ finds, `probe` for
      the `g` attribute of the response to GET / (None when the request
      raises) and `version` for sys.version. */
  method ShellCommand(args: seq<string>, isFile: string -> bool, usage: string, cwd: string,
                      importable: set<string>, probe: Option<GlobalsObject>, version: string)
    returns (r: Result<ShellSetup>)
    ensures ChooseConfig(args, isFile, usage).Err? ==> r == Err(ChooseConfig(args, isFile, usage).error)
    ensures ChooseConfig(args, isFile, usage).Ok? ==>
      var file := ChooseConfig(args, isFile, usage).value;
      var pkg := PackageName(cwd);
      var mods := ModuleNames(pkg);
      var g := if Truthy(probe) then probe else None;
      && (r.Ok? <==> forall k :: 0 <= k < |mods| ==> mods[k] in importable)
      && (r.Err? ==> exists k :: 0 <= k < |mods| && r.error == ImportError(mods[k]) && mods[k] !in importable &&
                                 forall j :: 0 <= j < k ==> mods[j] in importable)
      && (r.Ok? ==> r.value == ShellSetup(file, Locator(file), pkg, mods, Namespace(Locator(file), cwd, pkg, g),
                                          Banner(version, Truthy(probe)), g))
  {
    var configFile: string;
    if |args| == 0 {
      configFile := DefaultConfigFile;
      if !isFile(configFile) {
        return Err(BadCommand(MissingConfigMessage(usage)));
      }
    } else {
      configFile := args[0];
    }
    var configName := Locator(configFile);
    var hereDir := cwd;
    var pkgName := PackageName(hereDir);

    var imports := ImportAll(ModuleNames(pkgName), importable);
    if imports.Err? {
      return Err(imports.error);
    }

    // test_app.get('/').g, or None when the request raises
    var globalObj := probe;
    var locs := BuildNamespace(configName, hereDir, pkgName, globalObj);
    var pushed: Option<GlobalsObject> := None;
    if Truthy(globalObj) {
      pushed := globalObj;
    }
    var banner := BuildBanner(version, Truthy(globalObj));
    r := Ok(ShellSetup(configFile, configName, pkgName, imports.value, locs, banner, pushed));
  }
}
