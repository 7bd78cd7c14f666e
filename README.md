# Mojave MVC controller registry, in Dafny

This project models the start-up core of the Mojave MVC front controller:

- **`ControllerDatabase`** (`controller_database.dfy`) models `MappedControllerDatabase`. At construction it walks a set of controller classes once. It fills a map from controller variable to class. It fills one map per class from action name to `ActionSignature`. It records each class's `@BeforeAction`, `@AfterAction` and `@DefaultAction` signatures. It also records the single optional `@DefaultController` class. After that the object is only read.
  Reflection is replaced by metadata records. `ControllerClass` holds the class name, its controller variable, its `@DefaultController` flag and its declared methods. `MethodInfo` holds a method's name, its parameter types, its FastClass index and its role annotations.
  The function `Build` states what construction produces. It is a fold over the classes in iteration order. `Scan` states what the loop over one class's methods collects, as a fold over the methods. The class `MappedControllerDatabase` keeps the six fields of the source. Its methods `Init`, `AddControllerClass`, `CheckForDefaultController` and `SetActionMethodIndicesFor` update those fields as the source does. `Init` is proved to compute `Build` of the classes, and `SetActionMethodIndicesFor` to compute `Scan` of one class's methods. `AddControllerClass` is proved to compute `AddClass`, one step of `Build`. `CheckForDefaultController` is proved to compute only the default-controller update of that step. The getters are functions over the built fields. Under the invariant `Valid()` (the fields equal `Build` of the classes), their contracts speak of the classes the database was built from.
- **`Context`** (`front_controller_context.dfy`) models `FrontControllerContext`, a map from attribute names to objects with `getAttribute`/`setAttribute`.
- **`Initializer`** (`front_controller_initializer.dfy`) models `FrontControllerInitializer`. It covers reading the init parameters with their defaults, Java's `String.trim`, `isEmpty` and `processContextPath`. It also covers publishing the controller database into the context, where a failed build is swallowed. `ServletConfig` is a map from parameter names to values. The Guice injector and the controller-class scan are inputs of `PerformInitialization`: `Some(x)` is the value that step produced, and `None` stands for the exception it threw.
- **`Wrappers`** (`wrappers.dfy`): `Option` stands for Java's null, and `Result` for a call that either returns or throws.

Four places in `MappedControllerDatabase.java` are read by their evident intent rather than literally:

- The map field initialisers at lines 15-39 are cut off after `=`. The model reads each as a new empty map (`MappedControllerDatabase.Empty`). `defaultControllerClass` starts null, as line 46 says.
- Line 80 is cut off after `=`. The model reads it as `controllerClassToActionMap.get(controllerClass)`, which the null test at line 81 implies.
- Line 156 calls `checkForInitController`, but the method defined is `checkForDefaultController` (line 161). The model makes that call.
- Line 183 passes `action` and `fastClass`, which are never computed. The model takes `action` to be the name the `@Action` annotation declares. The FastClass index is an opaque integer carried by each method.

Mojave does not reject the following; the model follows the code:

- Two `@Action` methods of one class with the same action name are not rejected. The later one in iteration order replaces the earlier.
- A method carrying several role annotations is not rejected. It takes the first role in the order `@Action`, `@BeforeAction`, `@AfterAction`, `@DefaultAction`.

The bodies of the hook helpers `addBeforeOrAfterActionSignature` and `addDefaultActionSignature` are not in the file. The model takes each as a plain put keyed by the class, so when two methods of one class take the same hook role, the later one wins.

## Model

| member | source | states |
|---|---|---|
| `ControllerDatabase.AddActionSignature` | mojave-core/src/main/java/org/mojavemvc/core/MappedControllerDatabase.java:207-215 | the action map gains the action name; the stored signature carries the method's name, parameter types and fast index; other entries are unchanged |
| `ControllerDatabase.ScanActions` | mojave-core/src/main/java/org/mojavemvc/core/MappedControllerDatabase.java:175-184 | a class's action map has key `a` exactly when some declared method carries `@Action` named `a`; the stored signature is that of the last such method |
| `ControllerDatabase.ScanHook` | mojave-core/src/main/java/org/mojavemvc/core/MappedControllerDatabase.java:180-203 | a class has a before/after/default action exactly when some method takes that role under the priority Action, BeforeAction, AfterAction, DefaultAction; it is the signature of the last such method |
| `ControllerDatabase.ActionMethodHasNoHookRole` | mojave-core/src/main/java/org/mojavemvc/core/MappedControllerDatabase.java:180-185 | an `@Action` method is never the before/after/default action of its class, whatever else it is annotated with: a recorded hook is the signature of another method, one without `@Action` that takes that hook role |
| `ControllerDatabase.AddClassStep` | mojave-core/src/main/java/org/mojavemvc/core/MappedControllerDatabase.java:146-171 | adding one class fails exactly when its variable is taken or it is a second `@DefaultController`; otherwise the registry describes the classes so far plus this one |
| `ControllerDatabase.BuildCharacterised` | mojave-core/src/main/java/org/mojavemvc/core/MappedControllerDatabase.java:133-171 | construction succeeds exactly when controller variables are distinct and at most one class is `@DefaultController`; the registry then maps each variable to its class, gives every class and no other an action map, and records exactly the hooks and default controller the classes declare |
| `ControllerDatabase.AddClassFailureCause` | mojave-core/src/main/java/org/mojavemvc/core/MappedControllerDatabase.java:148-168 | a rejected class either reuses a variable already registered or is a second `@DefaultController`, and the error names which |
| `ControllerDatabase.BuildFailureCause` | mojave-core/src/main/java/org/mojavemvc/core/MappedControllerDatabase.java:146-171 | a failed construction reports a duplicate variable shared by two classes, or two `@DefaultController` classes, and nothing else |
| `ControllerDatabase.BuildFailurePropagates` | mojave-core/src/main/java/org/mojavemvc/core/MappedControllerDatabase.java:133-144 | the first exception ends construction: once a prefix of the classes fails, the whole construction fails with that error |
| `ControllerDatabase.DuplicateVariableRejected` | mojave-core/src/main/java/org/mojavemvc/core/MappedControllerDatabase.java:148-154 | two classes with the same controller variable make construction throw `ConfigurationException` |
| `ControllerDatabase.MultipleDefaultsRejected` | mojave-core/src/main/java/org/mojavemvc/core/MappedControllerDatabase.java:161-168 | two `@DefaultController` classes make construction throw |
| `ControllerDatabase.ControllerClassLookup` | mojave-core/src/main/java/org/mojavemvc/core/MappedControllerDatabase.java:141-155 | after construction a variable is mapped exactly when some class declares it, and it maps to that class |
| `ControllerDatabase.DefaultControllerLookup` | mojave-core/src/main/java/org/mojavemvc/core/MappedControllerDatabase.java:161-171 | the default controller is a class carrying `@DefaultController`, and it is absent exactly when no class carries it |
| `ControllerDatabase.ActionMapLookup` | mojave-core/src/main/java/org/mojavemvc/core/MappedControllerDatabase.java:173-215 | every registered class, and no other, has an action map; it holds `a` exactly when one of the class's methods declares `@Action` `a`, with that method's signature |
| `ControllerDatabase.HookLookup` | mojave-core/src/main/java/org/mojavemvc/core/MappedControllerDatabase.java:186-203 | a class has a recorded before/after/default action exactly when it is registered and one of its methods takes that role; the value is that method's signature |
| `ControllerDatabase.DuplicateVariableOverwrittenAsWritten` | mojave-core/src/main/java/org/mojavemvc/core/MappedControllerDatabase.java:148-155 | with the check as written, a second class with a taken variable is accepted and replaces the first; the documented check rejects it |
| `ControllerDatabase.HttpMethodController5Example` | mojave-core/src/test/java/org/mojavemvc/tests/othercontrollers/HttpMethodController5.java:28-43 | the fixture class registers under `httpmethod5` with an empty action map and its `@DefaultAction` method as default action; `@TRACEAction` is ignored |
| `ControllerDatabase.MappedControllerDatabase.Empty` | mojave-core/src/main/java/org/mojavemvc/core/MappedControllerDatabase.java:15-46 | a new object starts with every map empty and no default controller |
| `ControllerDatabase.MappedControllerDatabase.Init` | mojave-core/src/main/java/org/mojavemvc/core/MappedControllerDatabase.java:133-144 | the loop over the classes fails exactly when `Build` fails, with the same error, and otherwise leaves the fields equal to `Build` of the classes |
| `ControllerDatabase.MappedControllerDatabase.AddControllerClass` | mojave-core/src/main/java/org/mojavemvc/core/MappedControllerDatabase.java:146-159 | registering one class fails exactly when its variable is taken or it is a second default controller; otherwise the fields are the registry with the class added |
| `ControllerDatabase.MappedControllerDatabase.CheckForDefaultController` | mojave-core/src/main/java/org/mojavemvc/core/MappedControllerDatabase.java:161-171 | throws exactly when the class is `@DefaultController` and one is already recorded; otherwise records the class if it is annotated |
| `ControllerDatabase.MappedControllerDatabase.SetActionMethodIndicesFor` | mojave-core/src/main/java/org/mojavemvc/core/MappedControllerDatabase.java:173-205 | the loop over the methods stores the class's scanned action map, and puts its hooks into the three hook maps, leaving other classes' entries alone |
| `ControllerDatabase.MappedControllerDatabase.GetControllerClass` | mojave-core/src/main/java/org/mojavemvc/core/MappedControllerDatabase.java:66-69 | returns a class that was passed in and declares the variable, and null exactly when no class declares it |
| `ControllerDatabase.MappedControllerDatabase.GetActionMethodSignature` | mojave-core/src/main/java/org/mojavemvc/core/MappedControllerDatabase.java:78-85 | throws exactly for a class that was not registered; otherwise returns null exactly when no method declares the action, else the signature of a method that declares it |
| `ControllerDatabase.MappedControllerDatabase.GetHookFor` | mojave-core/src/main/java/org/mojavemvc/core/MappedControllerDatabase.java:94-119 | the shared lookup of the three hook getters: a signature exactly when the class is registered and has a method in that role, and it is such a method's signature |
| `ControllerDatabase.MappedControllerDatabase.GetBeforeActionMethodFor` | mojave-core/src/main/java/org/mojavemvc/core/MappedControllerDatabase.java:94-97 | the signature of a method with `@BeforeAction` and no `@Action`; null when the class has none or is not registered |
| `ControllerDatabase.MappedControllerDatabase.GetAfterActionMethodFor` | mojave-core/src/main/java/org/mojavemvc/core/MappedControllerDatabase.java:106-108 | the signature of a method whose first role is `@AfterAction`; null when there is none |
| `ControllerDatabase.MappedControllerDatabase.GetDefaultActionMethodFor` | mojave-core/src/main/java/org/mojavemvc/core/MappedControllerDatabase.java:117-119 | the signature of a method whose first role is `@DefaultAction`; null when there is none |
| `ControllerDatabase.MappedControllerDatabase.GetDefaultControllerClass` | mojave-core/src/main/java/org/mojavemvc/core/MappedControllerDatabase.java:127-129 | a registered `@DefaultController` class, and null exactly when no class is annotated |
| `ControllerDatabase.NewMappedControllerDatabase` | mojave-core/src/main/java/org/mojavemvc/core/MappedControllerDatabase.java:54-57 | the constructor yields a fresh valid database built from the given classes exactly when `Build` succeeds, and otherwise throws `Build`'s error |
| `Context.FrontControllerContext.constructor` | mojave-core/src/main/java/org/mojavemvc/core/FrontControllerContext.java:28 | a new context reads null for every name |
| `Context.FrontControllerContext.GetAttribute` | mojave-core/src/main/java/org/mojavemvc/core/FrontControllerContext.java:30-33 | an attribute is present exactly when its name is in the map, with the stored object |
| `Context.FrontControllerContext.SetAttribute` | mojave-core/src/main/java/org/mojavemvc/core/FrontControllerContext.java:35-38 | afterwards the name reads the new object, replacing any earlier one, and every other name reads as before |
| `Initializer.LeadingBlanks` | mojave-core/src/main/java/org/mojavemvc/core/FrontControllerInitializer.java:174 | the leading run of characters at or below `' '` that `trim` removes |
| `Initializer.TrailingBlanks` | mojave-core/src/main/java/org/mojavemvc/core/FrontControllerInitializer.java:174 | the trailing run of characters at or below `' '` that `trim` removes |
| `Initializer.Trim` | mojave-core/src/main/java/org/mojavemvc/core/FrontControllerInitializer.java:164 | `trim` keeps the infix of the string between the removed leading and trailing blanks; a non-empty result starts and ends with a character above `' '` |
| `Initializer.IsEmptyIff` | mojave-core/src/main/java/org/mojavemvc/core/FrontControllerInitializer.java:173-175 | `isEmpty(s)` holds exactly when `s` is null or every character of it is at or below `' '` |
| `Initializer.ProcessContextPath` | mojave-core/src/main/java/org/mojavemvc/core/FrontControllerInitializer.java:162-171 | a null or blank path comes back unchanged; any other path comes back ending in `/`, unchanged if it already did, else with one `/` appended |
| `Initializer.ProcessContextPathIdempotent` | mojave-core/src/main/java/org/mojavemvc/core/FrontControllerInitializer.java:167-170 | processing a path twice equals processing it once |
| `Initializer.JspPathOf` | mojave-core/src/main/java/org/mojavemvc/core/FrontControllerInitializer.java:56-70 | the JSP path is `""` exactly when the parameter is empty, else the processed parameter, so it is `""` or ends in `/` |
| `Initializer.WithDefault` | mojave-core/src/main/java/org/mojavemvc/core/FrontControllerInitializer.java:72-115 | an empty parameter gives the default, any other gives the parameter unchanged |
| `Initializer.FrontControllerInitializer.constructor` | mojave-core/src/main/java/org/mojavemvc/core/FrontControllerInitializer.java:23-26 | keeps the configuration and the context; every parameter field starts null |
| `Initializer.FrontControllerInitializer.PerformInitialization` | mojave-core/src/main/java/org/mojavemvc/core/FrontControllerInitializer.java:28-33 | `controllerClassNamespace` always holds the raw `controller-classes` parameter; throws exactly when it is empty, and then reads no other parameter and leaves the context untouched; otherwise all parameters are read, the injector is published if Guice produced one, and the database is published exactly when scan and construction succeed |
| `Initializer.FrontControllerInitializer.ReadInitParams` | mojave-core/src/main/java/org/mojavemvc/core/FrontControllerInitializer.java:35-44 | the mandatory parameter is read first and stored raw in `controllerClassNamespace` on both paths; its absence throws before any other field is set; otherwise every field holds its rule's value |
| `Initializer.FrontControllerInitializer.ReadControllerClassNamespace` | mojave-core/src/main/java/org/mojavemvc/core/FrontControllerInitializer.java:46-54 | stores the raw parameter and throws `ConfigurationException` exactly when it is empty |
| `Initializer.FrontControllerInitializer.ReadJspPath` | mojave-core/src/main/java/org/mojavemvc/core/FrontControllerInitializer.java:56-70 | the field is `""` for an empty parameter and the processed path otherwise |
| `Initializer.FrontControllerInitializer.ReadJspErrorFile` | mojave-core/src/main/java/org/mojavemvc/core/FrontControllerInitializer.java:72-85 | the parameter, or `"error.jsp"` when it is empty |
| `Initializer.FrontControllerInitializer.ReadControllerVariable` | mojave-core/src/main/java/org/mojavemvc/core/FrontControllerInitializer.java:87-100 | the parameter, or `"cntrl"` when it is empty |
| `Initializer.FrontControllerInitializer.ReadActionVariable` | mojave-core/src/main/java/org/mojavemvc/core/FrontControllerInitializer.java:102-115 | the parameter, or `"actn"` when it is empty |
| `Initializer.FrontControllerInitializer.ReadGuiceModulesNamespace` | mojave-core/src/main/java/org/mojavemvc/core/FrontControllerInitializer.java:117-120 | the raw parameter, possibly null, with no default |
| `Initializer.FrontControllerInitializer.CreateGuiceInjector` | mojave-core/src/main/java/org/mojavemvc/core/FrontControllerInitializer.java:122-136 | publishes the injector under its key when Guice produced one; a failure leaves the context as it was |
| `Initializer.FrontControllerInitializer.CreateControllerDatabase` | mojave-core/src/main/java/org/mojavemvc/core/FrontControllerInitializer.java:138-152 | when scan and construction succeed, the key holds a fresh valid database built from the scanned classes and nothing else changes; any failure is swallowed and the context is unchanged |
| `Initializer.FrontControllerInitializer.GetControllerVariable` | mojave-core/src/main/java/org/mojavemvc/core/FrontControllerInitializer.java:177-179 | after initialisation: never blank; `"cntrl"` for an empty parameter, else the parameter |
| `Initializer.FrontControllerInitializer.GetActionVariable` | mojave-core/src/main/java/org/mojavemvc/core/FrontControllerInitializer.java:181-183 | after initialisation: never blank; `"actn"` for an empty parameter, else the parameter |
| `Initializer.FrontControllerInitializer.GetJspPath` | mojave-core/src/main/java/org/mojavemvc/core/FrontControllerInitializer.java:185-187 | after initialisation: `""` exactly when the parameter is empty; otherwise the parameter after `processContextPath`, a path ending in `/` |
| `Initializer.FrontControllerInitializer.GetJspErrorFile` | mojave-core/src/main/java/org/mojavemvc/core/FrontControllerInitializer.java:189-191 | after initialisation: never blank; `"error.jsp"` for an empty parameter, else the parameter |

## Left out

- Reflection and annotation discovery (`getAnnotation`, `getDeclaredMethods`, `getControllerAnnotation`, `getControllerVariable`) are not modelled. Each class is an input record. The method order reflection gives is the order of that record's method sequence, and the order the class set iterates in is the order of the input sequence.
- cglib `FastClass` index computation is not modelled: the index is an opaque integer per method.
- `ActionSignature` leaves out the fourth `BaseActionSignature` argument, `method.getParameterAnnotations()` (MappedControllerDatabase.java:212-213). No operation in this model reads parameter annotations.
- `setInterceptorsFor` (line 158) is not part of this model: its body is not shown.
- `addBeforeOrAfterActionSignature` and `addDefaultActionSignature` are not shown. They are modelled as a plain put into the named map, with no duplicate check.
- `@TRACEAction` and other verb-specific annotations are not modelled: the scan shown does not test for them.
- The request-time dispatcher (handler and action resolution, verb filtering, before/after sequencing) is not part of this model: no dispatcher code is shown.
- Thread safety (`ConcurrentHashMap`, the "immutable hence thread-safe" claim) is not modelled: all semantics are sequential.
- The getters change no field and give the same result for the same arguments (MappedControllerDatabase.java:2-5 calls the class immutable once created). This is not a separate lemma: the getters are Dafny functions, which have no effects and are deterministic by construction.
- The `ConfigurationException` messages are not modelled. The message at line 82 is truncated, so the error value is `UnregisteredControllerClass(className)`.
- `ControllerDatabase.MappedControllerDatabase.GetActionMethodSignature`: it promises the signature of *a* method declaring the action. The last such method in iteration order is stated by `ScanActions`.
- The getters of `MappedControllerDatabase` take non-null arguments: a Dafny `ControllerClass` or `string` cannot be null. In the source, `getControllerClass(null)` and the hook getters return null through `HashMap.get`. `getActionMethodSignature(null, a)` throws `ConfigurationException`, since no class maps to null. The model does not cover those calls.
- The getters of `MappedControllerDatabase` require `Valid()`. An object exists only after a construction that did not throw, and `NewMappedControllerDatabase` ensures `Valid()` for it.
- Guice injector creation and both classpath scans are not modelled: they are inputs that either produce a value or stand for a thrown exception (`None`). The scan bodies are empty in the source.
- `GuiceInjectorKey` and `ControllerDatabaseKey` are stand-ins for `GuiceInitializer.KEY` and `ControllerDatabase.KEY`, whose values are not shown. The model relies only on their being distinct.
- The Servlet API and logging are not modelled: `ServletConfig` is an input map and `logger` calls are dropped.
- A `Throwable` other than `ConfigurationException` thrown by the database constructor (an error inside reflection, say) is not modelled. Such a throw is caught in the same way at FrontControllerInitializer.java:149.
- Non-null names and values in `FrontControllerContext` are a precondition, carried by the non-null type `object`: `ConcurrentHashMap` rejects null.
- Java `char` is a UTF-16 code unit, while a Dafny `char` is a Unicode scalar value. `trim` compares code units with `' '`, and the model compares scalar values with `' '`. The results agree: every surrogate code unit and every supplementary character is above `' '`, so neither is ever trimmed.
- `JSON.java`, `FTL.java`, `DefaultJspErrorHandler.java` and `Interceptor7.java` are not part of this model: they belong to rendering, error views and Guice-injected test fixtures.

## Findings

| source | as written | input that shows it | evidently intended | confidence | as-written member | corrected member |
|---|---|---|---|---|---|---|
| mojave-core/src/main/java/org/mojavemvc/core/MappedControllerDatabase.java:150 | the duplicate check looks the `Class` up in the `String`-keyed `controllerClassesMap`, so it never finds anything; a second class with a taken variable then silently replaces the first at line 155 | two distinct controller classes that both declare the variable `index`, neither carrying `@DefaultController` | look up the variable, and throw `ConfigurationException` "a controller variable with the value index already exists" (lines 148-149, 152-153) | not executed | `ControllerDatabase.DuplicateVariableOverwrittenAsWritten` (over `AddClassAsWritten`) | `ControllerDatabase.DuplicateVariableRejected` (over `AddClass`, used by `Build` and the class) |
