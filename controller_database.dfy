/** The controller registry of MappedControllerDatabase.java: built once from a
    set of controller classes, then only read. Reflection is replaced by plain
    metadata records; the registry the constructor builds is specified by the
    function Build, and the class MappedControllerDatabase is proved to build it. */
module ControllerDatabase {
  import opened Wrappers

  /** What reflection reports about one declared method of a controller class. */
  datatype MethodInfo = MethodInfo(
    name: string,
    parameterTypes: seq<string>,
    fastIndex: int,            // the index cglib's FastClass gives the method; opaque here
    action: Option<string>,    // @Action, with the action name it declares
    beforeAction: bool,        // @BeforeAction
    afterAction: bool,         // @AfterAction
    defaultAction: bool)       // @DefaultAction

  /** A controller class: its name, the controller variable its controller
      annotation declares, whether it carries @DefaultController, and its
      declared methods in the (unspecified) order reflection returns them. */
  datatype ControllerClass = ControllerClass(
    className: string,
    variable: string,
    isDefault: bool,
    methods: seq<MethodInfo>)

  /** BaseActionSignature: the fast index, the method name and its parameter types. */
  datatype ActionSignature = ActionSignature(fastIndex: int, methodName: string, parameterTypes: seq<string>)

  /** The causes of a ConfigurationException. */
  datatype ConfigurationError =
    | DuplicateControllerVariable(variable: string)
    | MultipleDefaultControllers
    | UnregisteredControllerClass(className: string)
    | MissingControllerClassNamespace

  function SignatureOf(m: MethodInfo): (s: ActionSignature)
  {
    ActionSignature(m.fastIndex, m.name, m.parameterTypes)
  }

  /* ---------------- scanning the methods of one class ---------------- */

  /** The three single-method roles a class records besides its actions. */
  datatype Hook = BeforeHook | AfterHook | DefaultActionHook

  /** The role rule, stated on its own: a method's annotations are tested in the
      order @Action, @BeforeAction, @AfterAction, @DefaultAction, and the method
      takes only the first role it carries. */
  predicate IsHookMethod(m: MethodInfo, h: Hook)
  {
    m.action.None? &&
    match h
    case BeforeHook => m.beforeAction
    case AfterHook => !m.beforeAction && m.afterAction
    case DefaultActionHook => !m.beforeAction && !m.afterAction && m.defaultAction
  }

  /** What the method scan of one class collects: its action map and the
      signatures it puts into the before, after and default-action maps. */
  datatype MethodTables = MethodTables(
    actions: map<string, ActionSignature>,
    before: Option<ActionSignature>,
    after: Option<ActionSignature>,
    defaultAction: Option<ActionSignature>)

  function HookOf(t: MethodTables, h: Hook): (r: Option<ActionSignature>)
  {
    match h
    case BeforeHook => t.before
    case AfterHook => t.after
    case DefaultActionHook => t.defaultAction
  }

  const NoMethodTables := MethodTables(map[], None, None, None)

  /** addActionSignature: the signature built from the method goes into the
      action map under the action name, replacing any earlier one. */
  function AddActionSignature(actionMap: map<string, ActionSignature>, action: string, m: MethodInfo)
    : (r: map<string, ActionSignature>)
    ensures r.Keys == actionMap.Keys + {action}
    ensures r[action].methodName == m.name && r[action].parameterTypes == m.parameterTypes
    ensures r[action].fastIndex == m.fastIndex
    ensures forall a | a in actionMap && a != action :: r[a] == actionMap[a]
  {
    actionMap[action := SignatureOf(m)]
  }

  /** One pass of the loop over the declared methods. */
  function ScanStep(t: MethodTables, m: MethodInfo): (t': MethodTables)
  {
    if m.action.Some? then t.(actions := AddActionSignature(t.actions, m.action.value, m))
    else if m.beforeAction then t.(before := Some(SignatureOf(m)))
    else if m.afterAction then t.(after := Some(SignatureOf(m)))
    else if m.defaultAction then t.(defaultAction := Some(SignatureOf(m)))
    else t
  }

  /** The whole loop, as a fold over the methods in declaration order. */
  function Scan(ms: seq<MethodInfo>): (t: MethodTables)
  {
    if ms == [] then NoMethodTables else ScanStep(Scan(ms[..|ms| - 1]), ms[|ms| - 1])
  }

  lemma ScanStepHook(t: MethodTables, m: MethodInfo, h: Hook)
    ensures HookOf(ScanStep(t, m), h) == if IsHookMethod(m, h) then Some(SignatureOf(m)) else HookOf(t, h)
  {
  }

  /** A class's action map has a key exactly when one of its methods carries
      @Action with that name, and it holds the signature of the last such method. */
  lemma {:induction false} ScanActions(ms: seq<MethodInfo>, a: string)
    ensures a in Scan(ms).actions <==> exists i | 0 <= i < |ms| :: ms[i].action == Some(a)
    ensures a in Scan(ms).actions ==>
      exists i | 0 <= i < |ms| :: ms[i].action == Some(a) && Scan(ms).actions[a] == SignatureOf(ms[i])
        && forall j | i < j < |ms| :: ms[j].action != Some(a)
  {
    if ms != [] {
      var n := |ms| - 1;
      var p, m := ms[..n], ms[n];
      ScanActions(p, a);
      if m.action == Some(a) {
        assert ms[n].action == Some(a);
      } else {
        assert Scan(ms).actions == Scan(p).actions || (m.action.Some? && a != m.action.value);
        assert a in Scan(ms).actions <==> a in Scan(p).actions;
        if a in Scan(p).actions {
          var i :| 0 <= i < |p| && p[i].action == Some(a) && Scan(p).actions[a] == SignatureOf(p[i])
            && forall j | i < j < |p| :: p[j].action != Some(a);
          assert ms[i] == p[i];
          assert forall j | i < j < |ms| :: ms[j].action != Some(a) by {
            forall j | i < j < |ms| ensures ms[j].action != Some(a) {
              if j < n { assert ms[j] == p[j]; }
            }
          }
        }
        if exists i | 0 <= i < |ms| :: ms[i].action == Some(a) {
          var i :| 0 <= i < |ms| && ms[i].action == Some(a);
          assert i < n && p[i] == ms[i];
        }
      }
    }
  }

  /** A class has a before (after, default) action exactly when one of its
      methods takes that role, and it is the signature of the last such method. */
  lemma {:induction false} ScanHook(ms: seq<MethodInfo>, h: Hook)
    ensures HookOf(Scan(ms), h).Some? <==> exists i | 0 <= i < |ms| :: IsHookMethod(ms[i], h)
    ensures HookOf(Scan(ms), h).Some? ==>
      exists i | 0 <= i < |ms| :: IsHookMethod(ms[i], h) && HookOf(Scan(ms), h).value == SignatureOf(ms[i])
        && forall j | i < j < |ms| :: !IsHookMethod(ms[j], h)
  {
    if ms != [] {
      var n := |ms| - 1;
      var p, m := ms[..n], ms[n];
      ScanHook(p, h);
      ScanStepHook(Scan(p), m, h);
      if IsHookMethod(m, h) {
        assert IsHookMethod(ms[n], h);
      } else {
        if HookOf(Scan(p), h).Some? {
          var i :| 0 <= i < |p| && IsHookMethod(p[i], h) && HookOf(Scan(p), h).value == SignatureOf(p[i])
            && forall j | i < j < |p| :: !IsHookMethod(p[j], h);
          assert ms[i] == p[i];
          assert forall j | i < j < |ms| :: !IsHookMethod(ms[j], h) by {
            forall j | i < j < |ms| ensures !IsHookMethod(ms[j], h) {
              if j < n { assert ms[j] == p[j]; }
            }
          }
        }
        if exists i | 0 <= i < |ms| :: IsHookMethod(ms[i], h) {
          var i :| 0 <= i < |ms| && IsHookMethod(ms[i], h);
          assert i < n && p[i] == ms[i];
        }
      }
    }
  }

  /** An @Action method never takes a second role: whatever else it is
      annotated with, the hooks of its class come from other methods. */
  lemma ActionMethodHasNoHookRole(ms: seq<MethodInfo>, k: nat, h: Hook)
    requires k < |ms| && ms[k].action.Some?
    ensures HookOf(Scan(ms), h).Some? ==>
      exists i | 0 <= i < |ms| ::
        i != k && ms[i].action.None? && IsHookMethod(ms[i], h) &&
        HookOf(Scan(ms), h).value == SignatureOf(ms[i])
  {
    ScanHook(ms, h);
  }

  /* ---------------- the registry ---------------- */

  /** The six fields of MappedControllerDatabase, as one value. */
  datatype Registry = Registry(
    controllerClasses: map<string, ControllerClass>,
    actionMaps: map<ControllerClass, map<string, ActionSignature>>,
    beforeActions: map<ControllerClass, ActionSignature>,
    afterActions: map<ControllerClass, ActionSignature>,
    defaultActions: map<ControllerClass, ActionSignature>,
    defaultController: Option<ControllerClass>)

  const EmptyRegistry := Registry(map[], map[], map[], map[], map[], None)

  function HookTable(r: Registry, h: Hook): (table: map<ControllerClass, ActionSignature>)
  {
    match h
    case BeforeHook => r.beforeActions
    case AfterHook => r.afterActions
    case DefaultActionHook => r.defaultActions
  }

  /** A put into a class-keyed hook map for every method of that role; when
      there is none the map is left as it was. */
  function PutHook(table: map<ControllerClass, ActionSignature>, c: ControllerClass, s: Option<ActionSignature>)
    : (table': map<ControllerClass, ActionSignature>)
  {
    if s.Some? then table[c := s.value] else table
  }

  /** The puts addControllerClass makes once its checks have passed. */
  function Register(r: Registry, c: ControllerClass): (r': Registry)
  {
    var t := Scan(c.methods);
    Registry(
      r.controllerClasses[c.variable := c],
      r.actionMaps[c := t.actions],
      PutHook(r.beforeActions, c, t.before),
      PutHook(r.afterActions, c, t.after),
      PutHook(r.defaultActions, c, t.defaultAction),
      if c.isDefault then Some(c) else r.defaultController)
  }

  /** addControllerClass with the duplicate-variable check keyed on the
      variable, as its comment and exception message describe; then the
      default-controller check of checkForDefaultController. */
  function AddClass(r: Registry, c: ControllerClass): (res: Result<Registry, ConfigurationError>)
  {
    if c.variable in r.controllerClasses then Failure(DuplicateControllerVariable(c.variable))
    else if c.isDefault && r.defaultController.Some? then Failure(MultipleDefaultControllers)
    else Success(Register(r, c))
  }

  /** addControllerClass as written: its duplicate check looks the class up in
      the variable-keyed map, finds nothing, and so never fires. */
  function AddClassAsWritten(r: Registry, c: ControllerClass): (res: Result<Registry, ConfigurationError>)
  {
    if c.isDefault && r.defaultController.Some? then Failure(MultipleDefaultControllers)
    else Success(Register(r, c))
  }

  /** What construction from the classes in this order produces: the first
      configuration error met, or the full registry. */
  function Build(cs: seq<ControllerClass>): (res: Result<Registry, ConfigurationError>)
  {
    if cs == [] then Success(EmptyRegistry)
    else
      match Build(cs[..|cs| - 1])
      case Failure(e) => Failure(e)
      case Success(r) => AddClass(r, cs[|cs| - 1])
  }

  ghost predicate DistinctVariables(cs: seq<ControllerClass>)
  {
    forall i, j | 0 <= i < j < |cs| :: cs[i].variable != cs[j].variable
  }

  ghost predicate AtMostOneDefault(cs: seq<ControllerClass>)
  {
    forall i, j | 0 <= i < j < |cs| :: !(cs[i].isDefault && cs[j].isDefault)
  }

  /** Each variable in the registry maps to the class in cs that declares it. */
  ghost predicate ClassesDescribed(r: Registry, cs: seq<ControllerClass>)
  {
    && (forall v | v in r.controllerClasses :: r.controllerClasses[v] in cs && r.controllerClasses[v].variable == v)
    && (forall c | c in cs :: c.variable in r.controllerClasses && r.controllerClasses[c.variable] == c)
  }

  /** Each class of cs, and no other, has the action map its methods give. */
  ghost predicate ActionMapsDescribed(r: Registry, cs: seq<ControllerClass>)
  {
    forall c :: Get(r.actionMaps, c) == if c in cs then Some(Scan(c.methods).actions) else None
  }

  /** Each class of cs, and no other, has the hooks its methods give. */
  ghost predicate HooksDescribed(r: Registry, cs: seq<ControllerClass>)
  {
    forall c, h :: Get(HookTable(r, h), c) == if c in cs then HookOf(Scan(c.methods), h) else None
  }

  /** The default controller is the class of cs that carries @DefaultController. */
  ghost predicate DefaultDescribed(r: Registry, cs: seq<ControllerClass>)
  {
    forall c :: r.defaultController == Some(c) <==> c in cs && c.isDefault
  }

  /** Registry r holds exactly what the classes cs declare. */
  ghost predicate Describes(r: Registry, cs: seq<ControllerClass>)
  {
    ClassesDescribed(r, cs) && ActionMapsDescribed(r, cs) && HooksDescribed(r, cs) && DefaultDescribed(r, cs)
  }

  lemma VariableRegistered(r: Registry, p: seq<ControllerClass>, v: string)
    requires ClassesDescribed(r, p)
    ensures v in r.controllerClasses <==> exists k | 0 <= k < |p| :: p[k].variable == v
  {
    if v in r.controllerClasses {
      var c := r.controllerClasses[v];
      var k :| 0 <= k < |p| && p[k] == c;
    }
    if exists k | 0 <= k < |p| :: p[k].variable == v {
      var k :| 0 <= k < |p| && p[k].variable == v;
      assert p[k] in p;
    }
  }

  lemma DefaultRegistered(r: Registry, p: seq<ControllerClass>)
    requires DefaultDescribed(r, p)
    ensures r.defaultController.Some? <==> exists k | 0 <= k < |p| :: p[k].isDefault
  {
    if exists k | 0 <= k < |p| :: p[k].isDefault {
      var k :| 0 <= k < |p| && p[k].isDefault;
      assert p[k] in p;
    }
    if r.defaultController.Some? {
      var c := r.defaultController.value;
      assert c in p;
      var k :| 0 <= k < |p| && p[k] == c;
    }
  }

  lemma RegisterClassesDescribed(r: Registry, p: seq<ControllerClass>, c: ControllerClass)
    requires ClassesDescribed(r, p) && c.variable !in r.controllerClasses
    ensures ClassesDescribed(Register(r, c), p + [c])
  {
    var r', cs := Register(r, c), p + [c];
    forall x ensures x in cs <==> x in p || x == c { }
    forall x | x in cs ensures x.variable in r'.controllerClasses && r'.controllerClasses[x.variable] == x {
      if x != c {
        assert x in p;
        assert x.variable != c.variable;
      }
    }
  }

  lemma RegisterActionMapsDescribed(r: Registry, p: seq<ControllerClass>, c: ControllerClass)
    requires ActionMapsDescribed(r, p)
    ensures ActionMapsDescribed(Register(r, c), p + [c])
  {
    var r', cs := Register(r, c), p + [c];
    forall x ensures Get(r'.actionMaps, x) == if x in cs then Some(Scan(x.methods).actions) else None {
      assert x in cs <==> x in p || x == c;
      assert Get(r.actionMaps, x) == if x in p then Some(Scan(x.methods).actions) else None;
    }
  }

  lemma RegisterHooksDescribed(r: Registry, p: seq<ControllerClass>, c: ControllerClass)
    requires HooksDescribed(r, p)
    ensures HooksDescribed(Register(r, c), p + [c])
  {
    var r', cs := Register(r, c), p + [c];
    forall x, h ensures Get(HookTable(r', h), x) == if x in cs then HookOf(Scan(x.methods), h) else None {
      assert x in cs <==> x in p || x == c;
      assert HookTable(r', h) == PutHook(HookTable(r, h), c, HookOf(Scan(c.methods), h));
      assert Get(HookTable(r, h), x) == if x in p then HookOf(Scan(x.methods), h) else None;
    }
  }

  lemma RegisterDefaultDescribed(r: Registry, p: seq<ControllerClass>, c: ControllerClass)
    requires DefaultDescribed(r, p) && !(c.isDefault && r.defaultController.Some?)
    ensures DefaultDescribed(Register(r, c), p + [c])
  {
    var r', cs := Register(r, c), p + [c];
    forall x ensures r'.defaultController == Some(x) <==> x in cs && x.isDefault {
      assert x in cs <==> x in p || x == c;
      assert r.defaultController == Some(x) <==> x in p && x.isDefault;
    }
  }

  /** Adding one class to a registry that describes p: it fails exactly when
      the class breaks one of the two uniqueness rules, and otherwise the new
      registry describes p + [c]. */
  lemma AddClassStep(r: Registry, p: seq<ControllerClass>, c: ControllerClass)
    requires Describes(r, p) && DistinctVariables(p) && AtMostOneDefault(p)
    ensures AddClass(r, c).Success? <==> DistinctVariables(p + [c]) && AtMostOneDefault(p + [c])
    ensures AddClass(r, c).Success? ==> Describes(AddClass(r, c).value, p + [c])
  {
    var cs, n := p + [c], |p|;
    VariableRegistered(r, p, c.variable);
    DefaultRegistered(r, p);
    if c.variable in r.controllerClasses {
      var k :| 0 <= k < |p| && p[k].variable == c.variable;
      assert cs[k].variable == cs[n].variable;
    } else if c.isDefault && r.defaultController.Some? {
      var k :| 0 <= k < |p| && p[k].isDefault;
      assert cs[k].isDefault && cs[n].isDefault;
    } else {
      RegisterClassesDescribed(r, p, c);
      RegisterActionMapsDescribed(r, p, c);
      RegisterHooksDescribed(r, p, c);
      RegisterDefaultDescribed(r, p, c);
      forall i, j | 0 <= i < j < |cs| ensures cs[i].variable != cs[j].variable {
        if j == n { assert cs[i] == p[i]; } else { assert cs[i] == p[i] && cs[j] == p[j]; }
      }
      forall i, j | 0 <= i < j < |cs| ensures !(cs[i].isDefault && cs[j].isDefault) {
        if j == n { assert cs[i] == p[i]; } else { assert cs[i] == p[i] && cs[j] == p[j]; }
      }
    }
  }

  /** Construction succeeds exactly when no two classes share a controller
      variable and at most one carries @DefaultController; the registry it
      then builds holds exactly what the classes declare. */
  lemma {:induction false} BuildCharacterised(cs: seq<ControllerClass>)
    ensures Build(cs).Success? <==> DistinctVariables(cs) && AtMostOneDefault(cs)
    ensures Build(cs).Success? ==> Describes(Build(cs).value, cs)
  {
    if cs != [] {
      var n := |cs| - 1;
      var p, c := cs[..n], cs[n];
      assert cs == p + [c];
      BuildCharacterised(p);
      if DistinctVariables(cs) && AtMostOneDefault(cs) {
        assert DistinctVariables(p) && AtMostOneDefault(p) by {
          forall i, j | 0 <= i < j < |p| ensures p[i].variable != p[j].variable {
            assert p[i] == cs[i] && p[j] == cs[j];
          }
          forall i, j | 0 <= i < j < |p| ensures !(p[i].isDefault && p[j].isDefault) {
            assert p[i] == cs[i] && p[j] == cs[j];
          }
        }
      }
      if Build(p).Success? {
        AddClassStep(Build(p).value, p, c);
      }
    }
  }

  lemma AddClassFailureCause(r: Registry, p: seq<ControllerClass>, c: ControllerClass)
    requires ClassesDescribed(r, p) && DefaultDescribed(r, p) && AddClass(r, c).Failure?
    ensures AddClass(r, c).error.DuplicateControllerVariable? || AddClass(r, c).error == MultipleDefaultControllers
    ensures AddClass(r, c).error.DuplicateControllerVariable? ==>
      exists i, j | 0 <= i < j < |p + [c]| :: (p + [c])[i].variable == (p + [c])[j].variable == AddClass(r, c).error.variable
    ensures AddClass(r, c).error == MultipleDefaultControllers ==>
      exists i, j | 0 <= i < j < |p + [c]| :: (p + [c])[i].isDefault && (p + [c])[j].isDefault
  {
    var cs, n := p + [c], |p|;
    VariableRegistered(r, p, c.variable);
    DefaultRegistered(r, p);
    if c.variable in r.controllerClasses {
      var k :| 0 <= k < |p| && p[k].variable == c.variable;
      assert cs[k].variable == cs[n].variable;
    } else {
      var k :| 0 <= k < |p| && p[k].isDefault;
      assert cs[k].isDefault && cs[n].isDefault;
    }
  }

  /** The exception names what went wrong: a variable two classes share, or
      a second @DefaultController. */
  lemma {:induction false} BuildFailureCause(cs: seq<ControllerClass>)
    requires Build(cs).Failure?
    ensures Build(cs).error.DuplicateControllerVariable? || Build(cs).error == MultipleDefaultControllers
    ensures Build(cs).error.DuplicateControllerVariable? ==>
      exists i, j | 0 <= i < j < |cs| :: cs[i].variable == cs[j].variable == Build(cs).error.variable
    ensures Build(cs).error == MultipleDefaultControllers ==>
      exists i, j | 0 <= i < j < |cs| :: cs[i].isDefault && cs[j].isDefault
  {
    var n := |cs| - 1;
    var p, c := cs[..n], cs[n];
    assert cs == p + [c];
    if Build(p).Failure? {
      BuildFailureCause(p);
      assert Build(cs) == Build(p);
      if Build(p).error.DuplicateControllerVariable? {
        var i, j :| 0 <= i < j < |p| && p[i].variable == p[j].variable == Build(p).error.variable;
        assert cs[i] == p[i] && cs[j] == p[j];
      } else {
        var i, j :| 0 <= i < j < |p| && p[i].isDefault && p[j].isDefault;
        assert cs[i] == p[i] && cs[j] == p[j];
      }
    } else {
      BuildCharacterised(p);
      AddClassFailureCause(Build(p).value, p, c);
    }
  }

  /** Once some prefix of the classes has failed, construction fails with that error. */
  lemma {:induction false} BuildFailurePropagates(cs: seq<ControllerClass>, k: nat)
    requires k <= |cs| && Build(cs[..k]).Failure?
    ensures Build(cs) == Build(cs[..k])
  {
    if k < |cs| {
      var n := |cs| - 1;
      assert cs[..n][..k] == cs[..k];
      BuildFailurePropagates(cs[..n], k);
    } else {
      assert cs[..k] == cs;
    }
  }

  /** Two classes with the same controller variable make construction throw. */
  lemma DuplicateVariableRejected(cs: seq<ControllerClass>, i: nat, j: nat)
    requires i < j < |cs| && cs[i].variable == cs[j].variable
    ensures Build(cs).Failure?
  {
    BuildCharacterised(cs);
  }

  /** Two classes carrying @DefaultController make construction throw. */
  lemma MultipleDefaultsRejected(cs: seq<ControllerClass>, i: nat, j: nat)
    requires i < j < |cs| && cs[i].isDefault && cs[j].isDefault
    ensures Build(cs).Failure?
  {
    BuildCharacterised(cs);
  }

  /** After construction, a variable maps to the class that declared it, and
      a variable no class declared maps to nothing. */
  lemma ControllerClassLookup(cs: seq<ControllerClass>, v: string)
    requires Build(cs).Success?
    ensures v in Build(cs).value.controllerClasses <==> exists c | c in cs :: c.variable == v
    ensures forall c | c in cs && c.variable == v :: Build(cs).value.controllerClasses[v] == c
  {
    BuildCharacterised(cs);
  }

  /** The default controller is the class carrying @DefaultController, or none. */
  lemma DefaultControllerLookup(cs: seq<ControllerClass>)
    requires Build(cs).Success?
    ensures Build(cs).value.defaultController.Some? ==>
      Build(cs).value.defaultController.value in cs && Build(cs).value.defaultController.value.isDefault
    ensures Build(cs).value.defaultController.None? <==> forall c | c in cs :: !c.isDefault
  {
    BuildCharacterised(cs);
  }

  /** Every registered class has an action map, possibly empty; an unregistered one has none. */
  lemma ActionMapLookup(cs: seq<ControllerClass>, c: ControllerClass, a: string)
    requires Build(cs).Success?
    ensures c in Build(cs).value.actionMaps <==> c in cs
    ensures c in cs ==>
      (a in Build(cs).value.actionMaps[c] <==> exists m | m in c.methods :: m.action == Some(a))
    ensures c in cs && a in Build(cs).value.actionMaps[c] ==>
      exists m | m in c.methods :: m.action == Some(a) && Build(cs).value.actionMaps[c][a] == SignatureOf(m)
  {
    BuildCharacterised(cs);
    assert Get(Build(cs).value.actionMaps, c) == if c in cs then Some(Scan(c.methods).actions) else None;
    ScanActions(c.methods, a);
    if exists m | m in c.methods :: m.action == Some(a) {
      var m :| m in c.methods && m.action == Some(a);
      var i :| 0 <= i < |c.methods| && c.methods[i] == m;
    }
  }

  /** A class's before (after, default) action is recorded exactly when the
      class is registered and one of its methods takes that role. */
  lemma HookLookup(cs: seq<ControllerClass>, c: ControllerClass, h: Hook)
    requires Build(cs).Success?
    ensures c in HookTable(Build(cs).value, h) <==> c in cs && exists m | m in c.methods :: IsHookMethod(m, h)
    ensures c in HookTable(Build(cs).value, h) ==>
      exists m | m in c.methods :: IsHookMethod(m, h) && HookTable(Build(cs).value, h)[c] == SignatureOf(m)
  {
    BuildCharacterised(cs);
    assert Get(HookTable(Build(cs).value, h), c) == if c in cs then HookOf(Scan(c.methods), h) else None;
    ScanHook(c.methods, h);
    if exists m | m in c.methods :: IsHookMethod(m, h) {
      var m :| m in c.methods && IsHookMethod(m, h);
      var i :| 0 <= i < |c.methods| && c.methods[i] == m;
    }
  }

  /** The check as written lets a second class take over a variable that the
      documented check rejects. */
  lemma DuplicateVariableOverwrittenAsWritten(first: ControllerClass, second: ControllerClass)
    requires first.variable == second.variable && first != second && !second.isDefault
    ensures AddClassAsWritten(EmptyRegistry, first).Success?
    ensures var r := AddClassAsWritten(EmptyRegistry, first).value;
      AddClassAsWritten(r, second).Success? && AddClassAsWritten(r, second).value.controllerClasses[first.variable] == second
    ensures AddClass(AddClass(EmptyRegistry, first).value, second) == Failure(DuplicateControllerVariable(first.variable))
  {
  }

  /** HttpMethodController5 as example input: one @DefaultAction method and one
      @TRACEAction method, an annotation the scan does not test for. */
  lemma HttpMethodController5Example()
    ensures
      var defaultAction := MethodInfo("defaultAction", [], 0, None, false, false, true);
      var doTraceAction := MethodInfo("doTraceAction", [], 1, None, false, false, false);
      var c := ControllerClass("HttpMethodController5", "httpmethod5", false, [defaultAction, doTraceAction]);
      var r := Build([c]);
      && r.Success?
      && r.value.controllerClasses == map["httpmethod5" := c]
      && r.value.actionMaps == map[c := map[]]
      && r.value.defaultActions == map[c := SignatureOf(defaultAction)]
      && r.value.beforeActions == map[] && r.value.afterActions == map[]
      && r.value.defaultController.None?
  {
    var defaultAction := MethodInfo("defaultAction", [], 0, None, false, false, true);
    var doTraceAction := MethodInfo("doTraceAction", [], 1, None, false, false, false);
    var ms := [defaultAction, doTraceAction];
    var c := ControllerClass("HttpMethodController5", "httpmethod5", false, ms);
    assert ms[..1] == [defaultAction] && [defaultAction][..0] == [];
    assert Scan([defaultAction]) == ScanStep(Scan([]), defaultAction);
    assert Scan(ms) == ScanStep(Scan([defaultAction]), doTraceAction);
    assert Scan(ms) == NoMethodTables.(defaultAction := Some(SignatureOf(defaultAction)));
    assert [c][..0] == [];
  }

  /* ---------------- the class ---------------- */

  class MappedControllerDatabase {
    var controllerClassesMap: map<string, ControllerClass>
    var controllerClassToActionMap: map<ControllerClass, map<string, ActionSignature>>
    var controllerClassToBeforeActionMap: map<ControllerClass, ActionSignature>
    var controllerClassToAfterActionMap: map<ControllerClass, ActionSignature>
    var controllerClassToDefaultActionMap: map<ControllerClass, ActionSignature>
    var defaultControllerClass: Option<ControllerClass>
    /** The classes the database was constructed from, in iteration order. */
    ghost var controllerClasses: seq<ControllerClass>

    function State(): (r: Registry)
      reads this
    {
      Registry(controllerClassesMap, controllerClassToActionMap, controllerClassToBeforeActionMap,
        controllerClassToAfterActionMap, controllerClassToDefaultActionMap, defaultControllerClass)
    }

    /** The object invariant after construction: the fields hold what Build gives. */
    ghost predicate Valid()
      reads this
    {
      Build(controllerClasses) == Success(State())
    }

    /** The field initialisers: every map empty, no default controller. */
    constructor Empty()
      ensures State() == EmptyRegistry && controllerClasses == []
    {
      controllerClassesMap := map[];
      controllerClassToActionMap := map[];
      controllerClassToBeforeActionMap := map[];
      controllerClassToAfterActionMap := map[];
      controllerClassToDefaultActionMap := map[];
      defaultControllerClass := None;
      controllerClasses := [];
    }

    method Init(classes: seq<ControllerClass>) returns (err: Option<ConfigurationError>)
      requires State() == EmptyRegistry
      modifies this
      ensures err.None? <==> Build(classes).Success?
      ensures err.None? ==> controllerClasses == classes && Valid()
      ensures err.Some? ==> Build(classes) == Failure(err.value)
    {
      var i := 0;
      while i < |classes|
        invariant 0 <= i <= |classes|
        invariant Build(classes[..i]) == Success(State())
      {
        var controllerClass := classes[i];
        assert classes[..i + 1][..i] == classes[..i];
        err := AddControllerClass(controllerClass.variable, controllerClass);
        if err.Some? {
          BuildFailurePropagates(classes, i + 1);
          return;
        }
        i := i + 1;
      }
      assert classes[..i] == classes;
      controllerClasses := classes;
      err := None;
    }

    method AddControllerClass(controllerVariable: string, controllerClass: ControllerClass)
      returns (err: Option<ConfigurationError>)
      requires controllerVariable == controllerClass.variable
      modifies this
      ensures err.None? <==> AddClass(old(State()), controllerClass).Success?
      ensures err.None? ==> State() == AddClass(old(State()), controllerClass).value
      ensures err.Some? ==> AddClass(old(State()), controllerClass) == Failure(err.value)
      ensures controllerClasses == old(controllerClasses)
    {
      // The source looks the class up here; the documented check is on the variable.
      if controllerVariable in controllerClassesMap {
        return Some(DuplicateControllerVariable(controllerVariable));
      }
      controllerClassesMap := controllerClassesMap[controllerVariable := controllerClass];
      err := CheckForDefaultController(controllerClass);
      if err.Some? {
        return;
      }
      SetActionMethodIndicesFor(controllerClass);
      // setInterceptorsFor is not part of this model.
    }

    method CheckForDefaultController(controllerClass: ControllerClass) returns (err: Option<ConfigurationError>)
      modifies this`defaultControllerClass
      ensures err.Some? <==> controllerClass.isDefault && old(defaultControllerClass).Some?
      ensures err.Some? ==> err.value == MultipleDefaultControllers
      ensures defaultControllerClass == if controllerClass.isDefault && err.None? then Some(controllerClass)
                                        else old(defaultControllerClass)
    {
      err := None;
      if controllerClass.isDefault {
        if defaultControllerClass.Some? {
          return Some(MultipleDefaultControllers);
        }
        defaultControllerClass := Some(controllerClass);
      }
    }

    method SetActionMethodIndicesFor(controllerClass: ControllerClass)
      modifies this`controllerClassToActionMap, this`controllerClassToBeforeActionMap
      modifies this`controllerClassToAfterActionMap, this`controllerClassToDefaultActionMap
      ensures controllerClassToActionMap == old(controllerClassToActionMap)[controllerClass := Scan(controllerClass.methods).actions]
      ensures controllerClassToBeforeActionMap ==
        PutHook(old(controllerClassToBeforeActionMap), controllerClass, Scan(controllerClass.methods).before)
      ensures controllerClassToAfterActionMap ==
        PutHook(old(controllerClassToAfterActionMap), controllerClass, Scan(controllerClass.methods).after)
      ensures controllerClassToDefaultActionMap ==
        PutHook(old(controllerClassToDefaultActionMap), controllerClass, Scan(controllerClass.methods).defaultAction)
    {
      var actionMap: map<string, ActionSignature> := map[];
      var methods := controllerClass.methods;
      for i := 0 to |methods|
        invariant actionMap == Scan(methods[..i]).actions
        invariant controllerClassToActionMap == old(controllerClassToActionMap)
        invariant controllerClassToBeforeActionMap ==
          PutHook(old(controllerClassToBeforeActionMap), controllerClass, Scan(methods[..i]).before)
        invariant controllerClassToAfterActionMap ==
          PutHook(old(controllerClassToAfterActionMap), controllerClass, Scan(methods[..i]).after)
        invariant controllerClassToDefaultActionMap ==
          PutHook(old(controllerClassToDefaultActionMap), controllerClass, Scan(methods[..i]).defaultAction)
      {
        var m := methods[i];
        assert methods[..i + 1][..i] == methods[..i];
        if m.action.Some? {
          actionMap := AddActionSignature(actionMap, m.action.value, m);
        } else if m.beforeAction {
          controllerClassToBeforeActionMap := controllerClassToBeforeActionMap[controllerClass := SignatureOf(m)];
        } else if m.afterAction {
          controllerClassToAfterActionMap := controllerClassToAfterActionMap[controllerClass := SignatureOf(m)];
        } else if m.defaultAction {
          controllerClassToDefaultActionMap := controllerClassToDefaultActionMap[controllerClass := SignatureOf(m)];
        }
      }
      assert methods[..|methods|] == methods;
      controllerClassToActionMap := controllerClassToActionMap[controllerClass := actionMap];
    }

    function GetControllerClass(controllerVariable: string): (r: Option<ControllerClass>)
      reads this
      requires Valid()
      ensures r.Some? <==> exists c | c in controllerClasses :: c.variable == controllerVariable
      ensures r.Some? ==> r.value in controllerClasses && r.value.variable == controllerVariable
    {
      ControllerClassLookup(controllerClasses, controllerVariable);
      Get(controllerClassesMap, controllerVariable)
    }

    function GetActionMethodSignature(controllerClass: ControllerClass, action: string)
      : (r: Result<Option<ActionSignature>, ConfigurationError>)
      reads this
      requires Valid()
      ensures r.Failure? <==> controllerClass !in controllerClasses
      ensures r.Failure? ==> r.error == UnregisteredControllerClass(controllerClass.className)
      ensures r.Success? ==> (r.value.Some? <==> exists m | m in controllerClass.methods :: m.action == Some(action))
      ensures r.Success? && r.value.Some? ==>
        exists m | m in controllerClass.methods :: m.action == Some(action) && r.value.value == SignatureOf(m)
    {
      ActionMapLookup(controllerClasses, controllerClass, action);
      match Get(controllerClassToActionMap, controllerClass)
      case None => Failure(UnregisteredControllerClass(controllerClass.className))
      case Some(actionMap) => Success(Get(actionMap, action))
    }

    function GetHookFor(controllerClass: ControllerClass, h: Hook): (r: Option<ActionSignature>)
      reads this
      requires Valid()
      ensures r.Some? <==> controllerClass in controllerClasses && exists m | m in controllerClass.methods :: IsHookMethod(m, h)
      ensures r.Some? ==> exists m | m in controllerClass.methods :: IsHookMethod(m, h) && r.value == SignatureOf(m)
    {
      HookLookup(controllerClasses, controllerClass, h);
      Get(HookTable(State(), h), controllerClass)
    }

    function GetBeforeActionMethodFor(controllerClass: ControllerClass): (r: Option<ActionSignature>)
      reads this
      requires Valid()
      ensures r.Some? <==> (controllerClass in controllerClasses &&
        exists m | m in controllerClass.methods :: m.action.None? && m.beforeAction)
      ensures r.Some? ==>
        exists m | m in controllerClass.methods :: m.action.None? && m.beforeAction && r.value == SignatureOf(m)
    {
      GetHookFor(controllerClass, BeforeHook)
    }

    function GetAfterActionMethodFor(controllerClass: ControllerClass): (r: Option<ActionSignature>)
      reads this
      requires Valid()
      ensures r.Some? <==> (controllerClass in controllerClasses &&
        exists m | m in controllerClass.methods :: m.action.None? && !m.beforeAction && m.afterAction)
      ensures r.Some? ==>
        exists m | m in controllerClass.methods :: m.action.None? && !m.beforeAction && m.afterAction && r.value == SignatureOf(m)
    {
      GetHookFor(controllerClass, AfterHook)
    }

    function GetDefaultActionMethodFor(controllerClass: ControllerClass): (r: Option<ActionSignature>)
      reads this
      requires Valid()
      ensures r.Some? <==> (controllerClass in controllerClasses &&
        exists m | m in controllerClass.methods :: m.action.None? && !m.beforeAction && !m.afterAction && m.defaultAction)
      ensures r.Some? ==>
        exists m | m in controllerClass.methods ::
          m.action.None? && !m.beforeAction && !m.afterAction && m.defaultAction && r.value == SignatureOf(m)
    {
      GetHookFor(controllerClass, DefaultActionHook)
    }

    function GetDefaultControllerClass(): (r: Option<ControllerClass>)
      reads this
      requires Valid()
      ensures r.Some? ==> r.value in controllerClasses && r.value.isDefault
      ensures r.None? <==> forall c | c in controllerClasses :: !c.isDefault
    {
      DefaultControllerLookup(controllerClasses);
      defaultControllerClass
    }
  }

  /** `new MappedControllerDatabase(controllerClasses)`: the field
      initialisers, then init; an exception from init means no object. */
  method NewMappedControllerDatabase(controllerClasses: seq<ControllerClass>)
    returns (r: Result<MappedControllerDatabase, ConfigurationError>)
    ensures r.Success? <==> Build(controllerClasses).Success?
    ensures r.Success? ==> fresh(r.value) && r.value.Valid() && r.value.controllerClasses == controllerClasses
    ensures r.Failure? ==> Build(controllerClasses) == Failure(r.error)
  {
    var db := new MappedControllerDatabase.Empty();
    var err := db.Init(controllerClasses);
    if err.Some? {
      return Failure(err.value);
    }
    return Success(db);
  }
}
