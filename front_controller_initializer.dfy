/** Start-up of the front controller (FrontControllerInitializer.java): the
    servlet init parameters with their defaults, the context-path rule, and
    the publication of the controller database into the context. The servlet
    configuration is a map from parameter names to values; Guice injector
    creation and the classpath scans are inputs that either give a result or
    stand for a thrown exception (None). */
module Initializer {
  import opened Wrappers
  import opened ControllerDatabase
  import opened Context

  const ControllerClassNamespaceParam := "controller-classes"
  const JspPathParam := "jsp-path"
  const JspErrorFileParam := "jsp-error-file"
  const ControllerVariableParam := "controller-variable"
  const ActionVariableParam := "action-variable"
  const GuiceModulesParam := "guice-modules"

  const DefaultJspErrorFile := "error.jsp"
  const DefaultControllerVariable := "cntrl"
  const DefaultActionVariable := "actn"

  /** Stand-ins for GuiceInitializer.KEY and ControllerDatabase.KEY, whose
      values are not part of this model; only their being distinct matters. */
  const GuiceInjectorKey := "guice-injector"
  const ControllerDatabaseKey := "controller-database"

  type ServletConfig = map<string, string>

  /** ServletConfig.getInitParameter: null when the parameter is absent. */
  function GetInitParameter(config: ServletConfig, name: string): (r: Option<string>)
  {
    Get(config, name)
  }

  /* ---------------- String.trim and the two string helpers ---------------- */

  /** The number of leading characters String.trim removes (those <= ' '). */
  function LeadingBlanks(s: string): (k: nat)
    ensures k <= |s|
    ensures forall i | 0 <= i < k :: s[i] <= ' '
    ensures k == |s| || s[k] > ' '
  {
    if s == [] || s[0] > ' ' then 0 else 1 + LeadingBlanks(s[1..])
  }

  /** The number of trailing characters String.trim removes. */
  function TrailingBlanks(s: string): (k: nat)
    ensures k <= |s|
    ensures forall i | |s| - k <= i < |s| :: s[i] <= ' '
    ensures k == |s| || s[|s| - k - 1] > ' '
  {
    if s == [] || s[|s| - 1] > ' ' then 0 else 1 + TrailingBlanks(s[..|s| - 1])
  }

  /** String.trim: the part of s left once every leading and trailing
      character <= ' ' is removed. */
  function Trim(s: string): (r: string)
    ensures LeadingBlanks(s) + |r| <= |s|
    ensures r == s[LeadingBlanks(s)..LeadingBlanks(s) + |r|]
    ensures forall i | LeadingBlanks(s) + |r| <= i < |s| :: s[i] <= ' '
    ensures r == [] || (r[0] > ' ' && r[|r| - 1] > ' ')
  {
    var t := s[LeadingBlanks(s)..];
    t[..|t| - TrailingBlanks(t)]
  }

  /** isEmpty: null, or nothing left after trim. */
  predicate IsEmpty(arg: Option<string>)
  {
    arg.None? || |Trim(arg.value)| == 0
  }

  /** A string is empty in that sense exactly when it is null or every one of
      its characters is one trim removes. */
  lemma IsEmptyIff(arg: Option<string>)
    ensures IsEmpty(arg) <==> arg.None? || forall i | 0 <= i < |arg.value| :: arg.value[i] <= ' '
  {
    if arg.Some? {
      var s := arg.value;
      var r := Trim(s);
      if r != [] {
        assert s[LeadingBlanks(s)] == r[0];
      }
    }
  }

  predicate EndsWithSlash(s: string)
  {
    |s| > 0 && s[|s| - 1] == '/'
  }

  /** processContextPath: a null or blank path comes back unchanged; any other
      path comes back ending in exactly one added '/' unless it already ends
      in one. */
  function ProcessContextPath(path: Option<string>): (r: Option<string>)
    ensures IsEmpty(path) ==> r == path
    ensures !IsEmpty(path) ==> r.Some? && EndsWithSlash(r.value)
    ensures !IsEmpty(path) && EndsWithSlash(path.value) ==> r == path
    ensures !IsEmpty(path) && !EndsWithSlash(path.value) ==>
      |r.value| == |path.value| + 1 && r.value[..|path.value|] == path.value
  {
    if path.None? || |Trim(path.value)| == 0 then path
    else if path.value[|path.value| - 1] != '/' then Some(path.value + "/")
    else path
  }

  /** Processing a context path twice gives what processing it once gives. */
  lemma ProcessContextPathIdempotent(path: Option<string>)
    ensures ProcessContextPath(ProcessContextPath(path)) == ProcessContextPath(path)
  {
    if !IsEmpty(path) {
      var r := ProcessContextPath(path);
      IsEmptyIff(path);
      var i :| 0 <= i < |path.value| && path.value[i] > ' ';
      assert r.value[i] == path.value[i];
      IsEmptyIff(r);
    }
  }

  /** readJspPath's rule: "" for an empty parameter, the processed path otherwise. */
  function JspPathOf(param: Option<string>): (r: string)
    ensures IsEmpty(param) ==> r == ""
    ensures !IsEmpty(param) ==> Some(r) == ProcessContextPath(param)
    ensures r == "" <==> IsEmpty(param)
    ensures r == "" || EndsWithSlash(r)
  {
    if !IsEmpty(param) then ProcessContextPath(param).value else ""
  }

  /** The rule of readJspErrorFile, readControllerVariable and readActionVariable. */
  function WithDefault(param: Option<string>, default: string): (r: string)
    ensures IsEmpty(param) ==> r == default
    ensures !IsEmpty(param) ==> param == Some(r)
  {
    if !IsEmpty(param) then param.value else default
  }

  /** The object publishes a controller database built from these classes. */
  ghost predicate IsDatabaseFor(o: object, classes: seq<ControllerClass>)
    reads o
  {
    o is MappedControllerDatabase &&
    var db := o as MappedControllerDatabase;
    db.Valid() && db.controllerClasses == classes
  }

  /* ---------------- the initializer ---------------- */

  class FrontControllerInitializer {
    var controllerClassNamespace: Option<string>
    var controllerVariable: Option<string>
    var actionVariable: Option<string>
    var jspPath: Option<string>
    var jspErrorFile: Option<string>
    var guiceModulesNamespace: Option<string>

    const servletConfig: ServletConfig
    const context: FrontControllerContext

    /** The fields as readInitParams leaves them when it returns normally. */
    ghost predicate Initialized()
      reads this
    {
      && controllerClassNamespace == GetInitParameter(servletConfig, ControllerClassNamespaceParam)
      && !IsEmpty(controllerClassNamespace)
      && jspPath == Some(JspPathOf(GetInitParameter(servletConfig, JspPathParam)))
      && jspErrorFile == Some(WithDefault(GetInitParameter(servletConfig, JspErrorFileParam), DefaultJspErrorFile))
      && controllerVariable == Some(WithDefault(GetInitParameter(servletConfig, ControllerVariableParam), DefaultControllerVariable))
      && actionVariable == Some(WithDefault(GetInitParameter(servletConfig, ActionVariableParam), DefaultActionVariable))
      && guiceModulesNamespace == GetInitParameter(servletConfig, GuiceModulesParam)
    }

    constructor (servletConfig: ServletConfig, context: FrontControllerContext)
      ensures this.servletConfig == servletConfig && this.context == context
      ensures controllerClassNamespace.None? && controllerVariable.None? && actionVariable.None?
      ensures jspPath.None? && jspErrorFile.None? && guiceModulesNamespace.None?
    {
      this.servletConfig := servletConfig;
      this.context := context;
      controllerClassNamespace := None;
      controllerVariable := None;
      actionVariable := None;
      jspPath := None;
      jspErrorFile := None;
      guiceModulesNamespace := None;
    }

    /** readInitParams, then createGuiceInjector, then createControllerDatabase.
        Only a missing controller-classes parameter escapes; a failure to
        build the database leaves its key unset. */
    method PerformInitialization(injector: Option<object>, scannedClasses: Option<seq<ControllerClass>>)
      returns (err: Option<ConfigurationError>)
      modifies this, context
      ensures err.Some? <==> IsEmpty(GetInitParameter(servletConfig, ControllerClassNamespaceParam))
      ensures err.Some? ==> err.value == MissingControllerClassNamespace
      ensures controllerClassNamespace == GetInitParameter(servletConfig, ControllerClassNamespaceParam)
      ensures err.Some? ==> unchanged(context) && jspPath == old(jspPath) && jspErrorFile == old(jspErrorFile)
      ensures err.Some? ==> controllerVariable == old(controllerVariable) && actionVariable == old(actionVariable)
      ensures err.Some? ==> guiceModulesNamespace == old(guiceModulesNamespace)
      ensures err.None? ==> Initialized()
      ensures err.None? ==>
        var afterGuice := if injector.Some? then old(context.attributes)[GuiceInjectorKey := injector.value]
                          else old(context.attributes);
        if scannedClasses.Some? && Build(scannedClasses.value).Success? then
          && ControllerDatabaseKey in context.attributes
          && context.attributes == afterGuice[ControllerDatabaseKey := context.attributes[ControllerDatabaseKey]]
          && fresh(context.attributes[ControllerDatabaseKey])
          && IsDatabaseFor(context.attributes[ControllerDatabaseKey], scannedClasses.value)
        else
          context.attributes == afterGuice
    {
      err := ReadInitParams();
      if err.Some? {
        return;
      }
      CreateGuiceInjector(injector);
      CreateControllerDatabase(scannedClasses);
    }

    method ReadInitParams() returns (err: Option<ConfigurationError>)
      modifies this
      ensures err.Some? <==> IsEmpty(GetInitParameter(servletConfig, ControllerClassNamespaceParam))
      ensures err.Some? ==> err.value == MissingControllerClassNamespace
      ensures controllerClassNamespace == GetInitParameter(servletConfig, ControllerClassNamespaceParam)
      ensures err.Some? ==> jspPath == old(jspPath) && jspErrorFile == old(jspErrorFile)
      ensures err.Some? ==> controllerVariable == old(controllerVariable) && actionVariable == old(actionVariable)
      ensures err.Some? ==> guiceModulesNamespace == old(guiceModulesNamespace)
      ensures err.None? ==> Initialized()
    {
      err := ReadControllerClassNamespace();
      if err.Some? {
        return;
      }
      ReadJspPath();
      ReadJspErrorFile();
      ReadControllerVariable();
      ReadActionVariable();
      ReadGuiceModulesNamespace();
    }

    method ReadControllerClassNamespace() returns (err: Option<ConfigurationError>)
      modifies this`controllerClassNamespace
      ensures controllerClassNamespace == GetInitParameter(servletConfig, ControllerClassNamespaceParam)
      ensures err.Some? <==> IsEmpty(controllerClassNamespace)
      ensures err.Some? ==> err.value == MissingControllerClassNamespace
    {
      controllerClassNamespace := GetInitParameter(servletConfig, ControllerClassNamespaceParam);
      err := None;
      if IsEmpty(controllerClassNamespace) {
        err := Some(MissingControllerClassNamespace);
      }
    }

    method ReadJspPath()
      modifies this`jspPath
      ensures jspPath == Some(JspPathOf(GetInitParameter(servletConfig, JspPathParam)))
    {
      jspPath := GetInitParameter(servletConfig, JspPathParam);
      if !IsEmpty(jspPath) {
        jspPath := ProcessContextPath(jspPath);
      } else {
        jspPath := Some("");
      }
    }

    method ReadJspErrorFile()
      modifies this`jspErrorFile
      ensures jspErrorFile == Some(WithDefault(GetInitParameter(servletConfig, JspErrorFileParam), DefaultJspErrorFile))
    {
      jspErrorFile := GetInitParameter(servletConfig, JspErrorFileParam);
      if IsEmpty(jspErrorFile) {
        jspErrorFile := Some(DefaultJspErrorFile);
      }
    }

    method ReadControllerVariable()
      modifies this`controllerVariable
      ensures controllerVariable ==
        Some(WithDefault(GetInitParameter(servletConfig, ControllerVariableParam), DefaultControllerVariable))
    {
      controllerVariable := GetInitParameter(servletConfig, ControllerVariableParam);
      if IsEmpty(controllerVariable) {
        controllerVariable := Some(DefaultControllerVariable);
      }
    }

    method ReadActionVariable()
      modifies this`actionVariable
      ensures actionVariable == Some(WithDefault(GetInitParameter(servletConfig, ActionVariableParam), DefaultActionVariable))
    {
      actionVariable := GetInitParameter(servletConfig, ActionVariableParam);
      if IsEmpty(actionVariable) {
        actionVariable := Some(DefaultActionVariable);
      }
    }

    method ReadGuiceModulesNamespace()
      modifies this`guiceModulesNamespace
      ensures guiceModulesNamespace == GetInitParameter(servletConfig, GuiceModulesParam)
    {
      guiceModulesNamespace := GetInitParameter(servletConfig, GuiceModulesParam);
    }

    /** The injector, when Guice produced one, is published under its key;
        a failure is swallowed. */
    method CreateGuiceInjector(injector: Option<object>)
      modifies context
      ensures context.attributes ==
        if injector.Some? then old(context.attributes)[GuiceInjectorKey := injector.value] else old(context.attributes)
    {
      if injector.Some? {
        context.SetAttribute(GuiceInjectorKey, injector.value);
      }
    }

    /** The database, when the scan and construction both succeed, is
        published under its key; otherwise the error is swallowed and the
        context is left as it was. */
    method CreateControllerDatabase(scannedClasses: Option<seq<ControllerClass>>)
      modifies context
      ensures if scannedClasses.Some? && Build(scannedClasses.value).Success? then
          && ControllerDatabaseKey in context.attributes
          && context.attributes == old(context.attributes)[ControllerDatabaseKey := context.attributes[ControllerDatabaseKey]]
          && fresh(context.attributes[ControllerDatabaseKey])
          && IsDatabaseFor(context.attributes[ControllerDatabaseKey], scannedClasses.value)
        else
          context.attributes == old(context.attributes)
    {
      if scannedClasses.None? {
        return;
      }
      var built := NewMappedControllerDatabase(scannedClasses.value);
      match built
      case Failure(_) =>
      case Success(db) =>
        context.SetAttribute(ControllerDatabaseKey, db);
    }

    function GetControllerVariable(): (r: Option<string>)
      reads this
      ensures Initialized() ==> r.Some? && !IsEmpty(r)
      ensures Initialized() && IsEmpty(GetInitParameter(servletConfig, ControllerVariableParam)) ==>
        r == Some(DefaultControllerVariable)
      ensures Initialized() && !IsEmpty(GetInitParameter(servletConfig, ControllerVariableParam)) ==>
        r == GetInitParameter(servletConfig, ControllerVariableParam)
    {
      controllerVariable
    }

    function GetActionVariable(): (r: Option<string>)
      reads this
      ensures Initialized() ==> r.Some? && !IsEmpty(r)
      ensures Initialized() && IsEmpty(GetInitParameter(servletConfig, ActionVariableParam)) ==>
        r == Some(DefaultActionVariable)
      ensures Initialized() && !IsEmpty(GetInitParameter(servletConfig, ActionVariableParam)) ==>
        r == GetInitParameter(servletConfig, ActionVariableParam)
    {
      actionVariable
    }

    function GetJspPath(): (r: Option<string>)
      reads this
      ensures Initialized() ==> r.Some? && (r.value == "" || EndsWithSlash(r.value))
      ensures Initialized() ==> (r == Some("") <==> IsEmpty(GetInitParameter(servletConfig, JspPathParam)))
      ensures Initialized() && !IsEmpty(GetInitParameter(servletConfig, JspPathParam)) ==>
        r == ProcessContextPath(GetInitParameter(servletConfig, JspPathParam))
    {
      jspPath
    }

    function GetJspErrorFile(): (r: Option<string>)
      reads this
      ensures Initialized() ==> r.Some? && !IsEmpty(r)
      ensures Initialized() && IsEmpty(GetInitParameter(servletConfig, JspErrorFileParam)) ==>
        r == Some(DefaultJspErrorFile)
      ensures Initialized() && !IsEmpty(GetInitParameter(servletConfig, JspErrorFileParam)) ==>
        r == GetInitParameter(servletConfig, JspErrorFileParam)
    {
      jspErrorFile
    }
  }
}
