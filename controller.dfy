/** The `controller` paster command: checking a controller name, and
    deriving from the parsed (name, directory) pair the class name, the
    template variables and the files to render. Rendering itself is done by
    paste's FileOp; this model stops at the planned copies. */
module Controller {
  import opened Outcomes
  import opened Text

  const EmptyNameMessage := "Please give the name of a controller."
  const ParseFailureMessage := "No egg_info directory was found"
  const UnknownErrorPrefix := "An unknown error ocurred, "
  const ControllerTemplate := "controller.py_tmpl"
  const TestTemplate := "test_controller.py_tmpl"

  /** The opening and the closing of the message for a name that is already
      importable; the full message is built by CollisionMessage. */
  function CollisionHead(name: string): string
  {
    "\n\nA module named '" + name + "'"
  }

  function RouteSuggestion(name: string): string
  {
    "  map.connect('" + name + "', controller='my_" + name + "')"
  }

  const CollisionWarning := " is already present in your PYTHON_PATH.\n Choosing a conflicting name will likely cause"
      + " import problems in\n your controller at some point. It's suggested that you choose an alternate\nname,"
      + " and if you'd like that name to be accessible as '"
  const CollisionRouteAdvice := "', add a route\nto your projects config/routing.py file similar to:\n"

  function CollisionMessage(name: string): (m: string)
    ensures StartsWith(m, CollisionHead(name))
    ensures EndsWith(m, RouteSuggestion(name))
  {
    var middle := CollisionWarning + name + CollisionRouteAdvice;
    var m := CollisionHead(name) + middle + RouteSuggestion(name);
    assert m[..|CollisionHead(name)|] == CollisionHead(name);
    assert m[|m| - |RouteSuggestion(name)|..] == RouteSuggestion(name);
    m
  }

  /** validate_name: an empty name and a name that is already importable are
      refused; any other name is accepted with True. */
  function ValidateName(name: string, importable: set<string>): (r: Result<bool>)
    ensures r.Ok? <==> name != [] && name !in importable
    ensures r.Ok? ==> r.value
    ensures r.Err? ==> r.error.BadCommand?
    ensures name == [] ==> r.error.message == EmptyNameMessage
    ensures name != [] && name in importable ==>
      && StartsWith(r.error.message, CollisionHead(name))
      && EndsWith(r.error.message, RouteSuggestion(name))
  {
    if name == [] then Err(BadCommand(EmptyNameMessage))
    else if name in importable then
      var message := CollisionMessage(name);
      assert StartsWith(message, CollisionHead(name)) && EndsWith(message, RouteSuggestion(name));
      Err(BadCommand(message))
    else Ok(true)
  }

  /** Hyphens in a controller name become underscores. */
  function NormalizeName(name: string): (r: string)
    ensures '-' !in r
    ensures |r| == |name|
    ensures forall i :: 0 <= i < |name| ==> r[i] == (if name[i] == '-' then '_' else name[i])
  {
    ReplaceCharRemoves(name, '-', '_');
    ReplaceChar(name, '-', '_')
  }

  /** The test file stem: a leading separator is forced onto the full name,
      every separator becomes '_', and the first character is dropped. */
  function TestName(fullname: string): (r: string)
    ensures '/' !in r
    ensures r == ReplaceChar(if StartsWith(fullname, "/") then fullname[1..] else fullname, '/', '_')
  {
    var rooted := if StartsWith(fullname, "/") then fullname else "/" + fullname;
    ReplaceCharDrop(rooted, 1, '/', '_');
    ReplaceCharRemoves(rooted[1..], '/', '_');
    assert rooted[1..] == if StartsWith(fullname, "/") then fullname[1..] else fullname;
    ReplaceChar(rooted, '/', '_')[1..]
  }

  /** A controller at the top of the controllers package keeps its own name
      as test name, separators turned into '_'. */
  lemma TestNameOfTopLevel(name: string)
    requires !StartsWith(name, "/")
    ensures TestName(Join("", name)) == ReplaceChar(name, '/', '_')
  {
  }

  /** A controller in a relative directory gets the directory, an '_' and
      the name as test name: `admin/trackback` gives `admin_trackback`. */
  lemma TestNameOfNested(directory: string, name: string)
    requires directory != [] && directory[0] != '/' && directory[|directory| - 1] != '/'
    requires !StartsWith(name, "/")
    ensures TestName(Join(directory, name)) == ReplaceChar(directory, '/', '_') + "_" + ReplaceChar(name, '/', '_')
  {
    var full := directory + "/" + name;
    assert Join(directory, name) == full;
    assert !StartsWith(full, "/") by {
      assert full[..1][0] == directory[0];
    }
    assert ReplaceChar(full, '/', '_') == ReplaceChar(directory, '/', '_') + "_" + ReplaceChar(name, '/', '_') by {
      ReplaceCharAppend(directory + "/", name, '/', '_');
      ReplaceCharAppend(directory, "/", '/', '_');
      assert ReplaceChar("/", '/', '_') == "_";
    }
  }

  /** One call of FileOp.copy_file: render `template` into `dest`/`filename`. */
  datatype CopyFile = CopyFile(template: string, dest: string, filename: string)

  /** What the command does to the project: the template variables it adds and
      the copies it makes, in order. */
  datatype ControllerPlan = ControllerPlan(templateVars: map<string, string>, copies: seq<CopyFile>)

  /** The BadCommand that the command's outer handler raises for any failure,
      carrying the original message. */
  function Wrapped<T>(message: string): (r: Result<T>)
    ensures r.Err? && r.error.BadCommand?
    ensures StartsWith(r.error.message, UnknownErrorPrefix)
    ensures EndsWith(r.error.message, message)
    ensures |r.error.message| == |UnknownErrorPrefix| + |message|
  {
    var m := UnknownErrorPrefix + message;
    assert m[..|UnknownErrorPrefix|] == UnknownErrorPrefix;
    assert m[|m| - |message|..] == message;
    Err(BadCommand(m))
  }

  /** ControllerCommand.command. `parse` stands for FileOp.parse_path_name_args
      (None when it raises) and `className` for util.class_name_from_module_name. */
  function ControllerCommand(args: seq<string>, parse: string -> Option<(string, string)>, noTest: bool,
                             importable: set<string>, className: string -> string): (r: Result<ControllerPlan>)
    ensures r.Err? ==> r.error.BadCommand? && StartsWith(r.error.message, UnknownErrorPrefix)
    ensures |args| == 0 || parse(args[0]).None? ==> r == Wrapped(ParseFailureMessage)
    ensures |args| > 0 && parse(args[0]).Some? ==>
      var check := ValidateName(NormalizeName(parse(args[0]).value.0), importable);
      && (r.Ok? <==> check.Ok?)
      && (r.Err? ==> r == Wrapped(check.error.message))
    ensures r.Ok? ==> |r.value.copies| == (if noTest then 1 else 2)
  {
    if |args| == 0 || parse(args[0]).None? then
      Wrapped(ParseFailureMessage)
    else
      var (raw, directory) := parse(args[0]).value;
      var name := NormalizeName(raw);
      match ValidateName(name, importable)
      case Err(e) => Wrapped(e.message)
      case Ok(_) =>
        var fullname := Join(directory, name);
        var templateVars := map["name" := className(LastSegment(name, '/')), "fname" := Join(directory, name)];
        var controller := CopyFile(ControllerTemplate, Join("controllers", directory), name);
        var test := CopyFile(TestTemplate, Join("tests", "functional"), "test_" + TestName(fullname));
        Ok(ControllerPlan(templateVars, if noTest then [controller] else [controller, test]))
  }

  /** On success the controller file is always planned first: template
      `controller.py_tmpl` rendered into `controllers/<directory>` under the
      normalised name, with the class name and the joined path as template
      variables. */
  lemma ControllerFilePlanned(args: seq<string>, parse: string -> Option<(string, string)>, noTest: bool,
                              importable: set<string>, className: string -> string)
    requires ControllerCommand(args, parse, noTest, importable, className).Ok?
    ensures |args| > 0 && parse(args[0]).Some?
    ensures var plan := ControllerCommand(args, parse, noTest, importable, className).value;
      var name := NormalizeName(parse(args[0]).value.0);
      var directory := parse(args[0]).value.1;
      && plan.copies[0] == CopyFile(ControllerTemplate, Join("controllers", directory), name)
      && plan.templateVars == map["name" := className(LastSegment(name, '/')), "fname" := Join(directory, name)]
  {
  }

  /** The test file is planned exactly when --no-test is absent; it is then
      the second copy, rendered into `tests/functional` as `test_<testname>`,
      and its file name holds no separator. */
  lemma TestFilePlannedIffNoFlag(args: seq<string>, parse: string -> Option<(string, string)>, noTest: bool,
                                 importable: set<string>, className: string -> string)
    requires ControllerCommand(args, parse, noTest, importable, className).Ok?
    ensures |args| > 0 && parse(args[0]).Some?
    ensures var copies := ControllerCommand(args, parse, noTest, importable, className).value.copies;
      (exists c :: c in copies && c.template == TestTemplate) <==> !noTest
    ensures var copies := ControllerCommand(args, parse, noTest, importable, className).value.copies;
      var name := NormalizeName(parse(args[0]).value.0);
      var directory := parse(args[0]).value.1;
      !noTest ==>
        && copies[1] == CopyFile(TestTemplate, Join("tests", "functional"), "test_" + TestName(Join(directory, name)))
        && '/' !in copies[1].filename
  {
    var copies := ControllerCommand(args, parse, noTest, importable, className).value.copies;
    assert |ControllerTemplate| != |TestTemplate|;
    if !noTest {
      assert copies[1] in copies;
      var stem := TestName(Join(parse(args[0]).value.1, NormalizeName(parse(args[0]).value.0)));
      TestFileNamePlain(stem);
      assert copies[1].filename == "test_" + stem;
    }
  }

  lemma TestFileNamePlain(stem: string)
    requires '/' !in stem
    ensures '/' !in "test_" + stem
  {
  }

  /** A controller named without a directory, like `comments` in the
      command's documentation: the controller goes to `controllers/` and the
      test to `tests/functional/test_<name>`. */
  lemma PlanForTopLevel(arg: string, parse: string -> Option<(string, string)>, raw: string,
                        importable: set<string>, className: string -> string)
    requires parse(arg) == Some((raw, ""))
    requires raw != [] && '/' !in raw && NormalizeName(raw) !in importable
    ensures var r := ControllerCommand([arg], parse, false, importable, className);
      && r.Ok?
      && |r.value.copies| == 2
      && r.value.copies[0] == CopyFile(ControllerTemplate, "controllers/", NormalizeName(raw))
      && r.value.copies[1] == CopyFile(TestTemplate, "tests/functional", "test_" + NormalizeName(raw))
  {
    TopLevelTestName(raw);
    ControllersRoot();
    TestsFunctional();
  }

  /** A top-level controller's test name is its normalised name. */
  lemma TopLevelTestName(raw: string)
    requires '/' !in raw
    ensures TestName(Join("", NormalizeName(raw))) == NormalizeName(raw)
  {
    var name := NormalizeName(raw);
    NormalizedPlain(raw);
    TestNameOfTopLevel(name);
    ReplaceCharAbsent(name, '/', '_');
  }

  lemma ControllersRoot()
    ensures Join("controllers", "") == "controllers/"
  {
  }

  /** A name without separators keeps none after normalisation. */
  lemma NormalizedPlain(raw: string)
    requires '/' !in raw
    ensures '/' !in NormalizeName(raw) && !StartsWith(NormalizeName(raw), "/")
  {
    var name := NormalizeName(raw);
    forall i | 0 <= i < |name| ensures name[i] != '/' {
      assert raw[i] in raw;
    }
    if |name| > 0 {
      assert name[..1][0] == name[0];
    }
  }

  lemma TestsFunctional()
    ensures Join("tests", "functional") == "tests/functional"
  {
    assert "functional"[..1][0] == 'f';
  }
}
