# Pylons paster commands: names, paths and shell set-up

This project models the decision and naming logic of the `controller` and
`shell` paster commands in `pylons/commands.py`:

- `validate_name` refuses an empty controller name and any name that is
  already importable. The collision message names the module and suggests a
  `map.connect` route. Every other name is accepted.
- `ControllerCommand.command` derives two things from the `(name, directory)`
  pair that `parse_path_name_args` returns. The first is the controller's
  class name and template variables. The second is the planned copies: the
  controller template into `controllers/<directory>`, and, unless
  `--no-test` is given, the functional test template into `tests/functional`
  as `test_<testname>`. Every failure is re-raised as
  `An unknown error ocurred, <message>`.
- `ShellCommand.command` chooses the config file (`development.ini` by
  default, which must then exist) and builds the `config:` locator. It takes
  the package name from the last segment of the working directory,
  lower-cased, and imports `<pkg>.config.routing`, `<pkg>.models` and
  `<pkg>.lib.helpers` in order. It then assembles the console namespace
  (`locs`) and the banner. `g` is bound and listed only when the globals
  object is truthy.

Modules:

- `Outcomes`: `Option`, `Result`, and the two exceptions (`BadCommand`,
  `ImportError`).
- `Text`: the string operations the commands use, namely `str.replace` of
  one character, `split(sep)[-1]`, `lower()`, `%-10s` padding and
  `os.path.join`.
- `Controller`: the controller command. It is a pure function that returns
  the planned copies or the error.
- `Shell`: the shell command. It is a method whose parts mirror the source:
  a loop over the three imports, the `locs` updates and the `banner +=`
  steps. Each part is proved against the functions `ChooseConfig`,
  `PackageName`, `ModuleNames`, `Namespace` and `Banner`.

Conventions:

- `os.sep` is `/`. `os.path.join(a, b)` is the POSIX join: `b` when `b` is
  absolute, `a + b` when `a` is empty or ends in `/`, and `a + "/" + b`
  otherwise.
- These pieces of the environment are parameters:
  - which modules `__import__` finds: a set of dotted names;
  - `FileOp.parse_path_name_args`: a function, `None` when it raises;
  - `util.class_name_from_module_name`: a function;
  - `os.path.isfile`: a predicate;
  - `os.getcwd()`;
  - `parser.get_usage()`;
  - `sys.version`;
  - the `g` attribute of the response to `GET /`: an optional object with
    its Python truth value.
- The loaded application, the routes mapper, the test client and the
  imported modules are symbolic values in the namespace.

## Model

| member | source | states |
|---|---|---|
| Text.ReplaceChar | pylons/commands.py:91 | the result has the input's length, and each character equal to the target is replaced while every other character is kept |
| Text.ReplaceCharRemoves | pylons/commands.py:91 | after replacing a character by a different one, the character no longer occurs |
| Text.ReplaceCharAppend | pylons/commands.py:99 | replacing distributes over concatenation |
| Text.ReplaceCharDrop | pylons/commands.py:99 | replacing and then dropping a prefix equals dropping the prefix and then replacing (the `[1:]` of the test name) |
| Text.ReplaceCharAbsent | pylons/commands.py:99 | replacing a character that does not occur changes nothing |
| Text.LastSegment | pylons/commands.py:96 | `split(sep)[-1]` is the longest suffix without the separator: it is a suffix, it holds no separator, and it is preceded by a separator whenever it is shorter than the input |
| Text.LastSegmentOfPlain | pylons/commands.py:96 | a string without separators is its own last segment |
| Text.LastSegmentAfterSep | pylons/commands.py:153 | the last segment of `a + sep + b` is `b` when `b` holds no separator |
| Text.Lower | pylons/commands.py:153 | `lower()` keeps the length and maps each upper-case letter to its lower-case form |
| Text.LowerIsLower | pylons/commands.py:153 | a lowered string has no upper-case letter, and lowering it again changes nothing |
| Text.Spaces | pylons/commands.py:199 | n spaces |
| Text.PadRight | pylons/commands.py:199 | `%-10s`: the string followed by spaces up to the width, never truncated |
| Text.Join | pylons/commands.py:94 | `os.path.join` replaces the first part by an absolute second part; otherwise the result starts with the first part, ends with the second, and is exactly one separator longer than the two together unless the first part is empty or already ends in a separator, in which case it is their plain concatenation |
| Controller.CollisionMessage | pylons/commands.py:29-37 | the collision message opens with two line breaks and "A module named '<name>'" and ends with the suggested `map.connect('<name>', controller='my_<name>')` route |
| Controller.ValidateName | pylons/commands.py:21-42 | succeeds (with True) exactly when the name is non-empty and not importable; an empty name fails with "Please give the name of a controller."; an importable name fails with the collision message naming it |
| Controller.NormalizeName | pylons/commands.py:91 | the normalised name has no '-', keeps its length, and differs from the input only where a '-' became '_' |
| Controller.TestName | pylons/commands.py:94-99 | the test name holds no separator and is the full name, with one leading separator removed, with separators turned into '_' |
| Controller.TestNameOfTopLevel | pylons/commands.py:52-54 | with no directory the test name is the name itself, separators turned into '_' (`comments` gives `comments`) |
| Controller.TestNameOfNested | pylons/commands.py:60-63 | with a relative directory the test name is the directory, '_', then the name (`admin/trackback` gives `admin_trackback`) |
| Controller.Wrapped | pylons/commands.py:109-111 | the outer handler's error is a BadCommand made of "An unknown error ocurred, " followed by the original message and nothing else (prefix, suffix and exact length) |
| Controller.ControllerCommand | pylons/commands.py:80-111 | a missing argument or a failed parse gives the wrapped "No egg_info directory was found"; otherwise the command succeeds exactly when `validate_name` accepts the normalised name, and its failure is the wrapped validation message; on success it plans one copy with --no-test and two without |
| Controller.ControllerFilePlanned | pylons/commands.py:100-104 | on success the first copy renders controller.py_tmpl into `controllers/<directory>` as `<name>`, and the template variables are the class name of the last segment and the joined path |
| Controller.TestFilePlannedIffNoFlag | pylons/commands.py:105-108 | the test template is planned exactly when --no-test is absent, as the second copy into `tests/functional` named `test_<testname>`, and that file name holds no separator |
| Controller.TestFileNamePlain | pylons/commands.py:108 | `test_` followed by a separator-free stem is separator-free |
| Controller.PlanForTopLevel | pylons/commands.py:50-54 | `paster controller comments` plans `controllers/` + `comments` and `tests/functional` + `test_comments` |
| Controller.TopLevelTestName | pylons/commands.py:94-99 | the test name of a top-level controller is its normalised name |
| Controller.NormalizedPlain | pylons/commands.py:91 | normalising a name without separators leaves it without separators and not absolute |
| Controller.ControllersRoot | pylons/commands.py:103 | joining `controllers` with the empty directory gives `controllers/` |
| Controller.TestsFunctional | pylons/commands.py:107 | joining `tests` and `functional` gives `tests/functional` |
| Shell.MissingConfigMessage | pylons/commands.py:143-146 | the missing-config error starts with the command's usage text |
| Shell.ChooseConfig | pylons/commands.py:139-148 | fails exactly when there is no argument and `development.ini` is not a file, with a BadCommand that starts with the usage; otherwise the file is the argument, or `development.ini` when there is none |
| Shell.Locator | pylons/commands.py:150 | the locator is `config:` followed by the file: it starts with the prefix and the rest is the file |
| Shell.LocatorRoundTrip | pylons/commands.py:150 | the file can be read back from its locator |
| Shell.PackageName | pylons/commands.py:153 | the package name is the lower-cased suffix of the working directory after its last separator: it has no separator and no upper-case letter |
| Shell.PackageNameOfProjectDir | pylons/commands.py:153 | the working directory `<parent>/<project>` gives the package `project` lower-cased |
| Shell.ModuleNames | pylons/commands.py:167-172 | three modules are imported |
| Shell.ModuleNamesInPackage | pylons/commands.py:167-169 | the modules are `<pkg>.config.routing`, `<pkg>.models` and `<pkg>.lib.helpers` in that order; each starts with `<pkg>.`, and the three are distinct |
| Shell.NamespaceBindings | pylons/commands.py:184-194 | the namespace always binds `__name__`, `model`, `mapper`, `wsgiapp`, `app` and `h`, binds `g` exactly when there is a globals object, and binds nothing else; `mapper` is made from the first imported module (routing), `model` is the second and `h` the third |
| Shell.NamespaceKeys | pylons/commands.py:184-194 | the namespace's names are `__name__`, the five objects, and `g` when present |
| Shell.Truthy | pylons/commands.py:193 | `if global_obj:` holds only for an object that was obtained (and is true) |
| Shell.Namespace | pylons/commands.py:184-194 | the reference namespace: `__name__` is `pylons-admin`, `app` wraps `wsgiapp`, `wsgiapp` is the app loaded from the locator relative to the working directory, and `g` is bound exactly when a globals object is given (further facts in NamespaceBindings) |
| Shell.BannerEntries | pylons/commands.py:199-207 | the banner lists six objects with `g` and five without: `mapper` and `h` first, `g` third when present, then `model`, `wsgiapp` and `app` |
| Shell.EntriesInAppendOrder | pylons/commands.py:199-207 | the listed objects are those the `banner +=` steps append, in the same order |
| Shell.Lines | pylons/commands.py:199-207 | the lines of a non-empty list start with the first entry's line (LinesSnoc: one more entry appends its line) |
| Shell.BannerHead | pylons/commands.py:197-198 | the heading is exactly "Pylons Interactive Shell\nPython ", then the version, then a blank line ("\n\n"), then "Additional Objects:\n": each piece is stated at its position and the length admits nothing else |
| Shell.Banner | pylons/commands.py:197-207 | the reference banner starts with the heading and ends with the `app` line |
| Shell.LastLineLast | pylons/commands.py:207 | a heading followed by the lines of some objects ends with the last object's line |
| Shell.EntryNames | pylons/commands.py:197-207 | the banner lists the five objects, and `g` exactly when asked to |
| Shell.BannerLine | pylons/commands.py:199 | a banner line starts with two spaces and the name padded to ten columns |
| Shell.LinesSnoc | pylons/commands.py:197-207 | listing one more object appends its line to the banner |
| Shell.BannerListsNamespace | pylons/commands.py:184-207 | the names the banner lists are exactly the namespace's names other than `__name__` |
| Shell.GlobalsListedIffBound | pylons/commands.py:193-202 | the `g` line is in the banner exactly when `g` is bound |
| Shell.AppendBannerLine | pylons/commands.py:199-207 | appending one line to the head and the lines shown so far gives the head and the lines of one more object |
| Shell.ImportAll | pylons/commands.py:171-173 | succeeds exactly when every module is importable, importing them all in order; otherwise fails with ImportError for the first module that is not importable |
| Shell.BuildNamespace | pylons/commands.py:184-194 | the `locs` updates produce the namespace, with `g` exactly when the globals object is truthy |
| Shell.AppendLine | pylons/commands.py:199 | one `banner +=` step appends the object's line and keeps the banner equal to the head plus the lines shown so far |
| Shell.BuildBanner | pylons/commands.py:197-207 | the `banner +=` steps produce the banner: the heading with the Python version, then one line per listed object |
| Shell.ShellCommand | pylons/commands.py:135-207 | a config-file failure is raised before anything is imported; otherwise the command fails exactly when a module is missing, naming the first missing one; on success it yields the chosen file, its locator, the package, the three imported modules, the namespace and banner, and the globals object pushed exactly when it is truthy |

## Left out

- Template rendering and file creation by `FileOp.copy_file`, and anything it raises: the model stops at the planned copies.
- The internals of `FileOp.parse_path_name_args` (the egg_info lookup): it is a parameter.
- `util.class_name_from_module_name` is not part of this model. It is a parameter, so the class name is stated only as its value on the last segment of the name.
- `__import__`, `sys.path.insert` and `sys.modules`: importability is a set of module names. The text of Python's ImportError message is not modelled; the error carries the module's name.
- `appconfig`, `paste.deploy.config.CONFIG.push_thread_config` and `loadapp`: the application is a symbolic value. Their failures (for instance a config file given as an argument that does not exist) are not modelled.
- The `getattr(..., 'make_map')` lookup failing on a routing module without `make_map`: the mapper is always made.
- `paste.fixture.TestApp` and the request to `/`: its outcome is the parameter `probe`, and `None` stands for a request that raised.
- The IPython and `code.InteractiveConsole` shells, their `raw_input` EOF re-raise and `readline`: interactive I/O that only receives the namespace and banner.
- `sys.version` and `os.path.isfile` are parameters.
- The `min_args`/`max_args` argument-count checks of paste's `Command` framework. The controller command still handles an empty argument list, which gives the "No egg_info directory was found" error, because the index sits inside the inner `try`.
- Text.Lower: lowers the ASCII letters A-Z only; locale-dependent and Unicode case mapping is not modelled.
- Controller.ControllerCommand: models the update of `file_op.template_vars` as the returned map of the two variables. It does not model the other template variables that `FileOp` already holds.
- Controller.TestNameOfNested: proves the test name of a nested controller. The whole nested plan (the `controllers/admin` destination) is given only through ControllerFilePlanned.
