# dsmk microkernel: name server, boot and shutdown, in Dafny

dsmk is a small Java microkernel. Its kernel (`org.dsmk.kernel.Main`) holds
three ordered groups of subsystems: *pre*, *ext* and *post*.

- `configure` reads the groups and the kernel's collaborators from a map.
- `start` does the following in order:
  1. obtains a log;
  2. creates a name server;
  3. registers three bootstrap singletons in it: the log server, the merged configuration properties and the startup arguments;
  4. drives each group through `configure` and `start`, one group after another. The first NOT_OK Result ends the boot.
- `stop` stops the post, ext and pre groups, each from its last subsystem to its first, and carries on past any NOT_OK Result or Exception. It then unregisters the bootstrap singletons.

The name server (`DefaultNameServer`) maps a name to a FIFO bucket of instances. It supports:

- `register`, which appends to the bucket;
- `lookupAll` and `lookup1`, with typed variants;
- `unRegister`, which removes one occurrence;
- `isRegistered`, which tests identity membership and never throws.

Every lifecycle call answers an `org.dsmk.api.Result`: a status (OK or NOT_OK), a code and a message.

The project has six modules:

- `Lang` (lang.dfy): Java's null as `Option`, opaque objects `Obj` compared by identity, the exceptions, and `Outcome` (returns or throws).
- `Results` (results.dfy): `Result`, `Status`, `Result.OK` and `Result.NOT_OK`. `Result` is immutable, so its getters are the datatype's destructors `status`, `code` and `msg`.
- `Naming` (naming.dfy): the registry.
  - Pure functions over `map<string, seq<Obj>>` state each operation, including every error.
  - `class NameServer` holds the registry and mutates it. Its methods are proved against those functions.
  - `class NameRegistration` is the handle `register` returns.
- `Lifecycle` (lifecycle.dfy): the lifecycle calls the kernel makes.
  - A `Subsystem` answers from a script, and its `stop` may throw.
  - A boot or shutdown is a plan of `Call`s. `FirstFailure`, `Executed` and `SweepResult` describe an abort-on-first-NOT_OK sweep over a plan, and the lemmas state the ordering and abort rules.
- `Loading` (loading.dfy): `loadSubsystem`. It reads `<group>.count` with `Integer.parseInt`, then scans `<group>.<i>.class`. A factory table stands in for reflection.
- `Microkernel` (microkernel.dfy): `class Kernel`, with `Main`'s fields and its `configure`, `start`, `stop` and their helpers.
  - The seven fields `configure` assigns are one `settings` record.
  - A ghost `trace` records every lifecycle call the kernel makes.

The code behaves differently from a natural reading of the boot and shutdown protocol in four places, and the model follows the code:

- A group is configured whole before any member is started. With pre = [A, B] and B's configure failing, the calls are A.configure and B.configure only, and A is never started (`Lifecycle.BootStopsAtFailingConfigure`).
- `stop` throws `NullPointerException` when no log was ever obtained, or when a bootstrap registration it reaches is missing. Otherwise it answers OK whatever NOT_OK Result or Exception the subsystems' stops and the unregistrations produced.
- A Result with a null status is neither OK nor NOT_OK, so the boot sweep treats it as success.
- `unregisterNames` takes the three handles in registration order and stops at the first NamingException, answering NOT_OK; later bootstrap names stay registered (`Microkernel.SecondUnregisterNamesFails`).

## Model

Paths are relative to the repository root.

| member | source | states |
|---|---|---|
| Results.OkResult | dsmk-api/src/main/java/org/dsmk/api/Result.java:9 | Result.OK has status OK, so it is OK and not NOT_OK; its code is "common.status.ok" and its message "common.msg.success" |
| Results.NotOkResult | dsmk-api/src/main/java/org/dsmk/api/Result.java:10 | Result.NOT_OK has status NOT_OK; its code is "common.status.notok" and its message "common.msg.failure" |
| Results.StatusDecidesOkAndNotOk | dsmk-api/src/main/java/org/dsmk/api/Result.java:23-29 | isOK iff the status is OK; isNotOK iff it is NOT_OK; with a status, exactly one holds; with a null status, neither holds |
| Naming.LookupAll | dsmk-kernel/src/main/java/org/dsmk/kernel/Main.java:658-677 | lookupAll succeeds exactly for a non-null, non-blank name with a non-empty bucket, yielding the bucket in registration order. A null or blank name, an unknown name and an empty bucket each give their own NamingException |
| Naming.Lookup1 | dsmk-kernel/src/main/java/org/dsmk/kernel/Main.java:651-655 | lookup1 fails exactly when lookupAll does, with the same exception; otherwise it yields the bucket's first instance |
| Naming.Lookup1Typed | dsmk-kernel/src/main/java/org/dsmk/kernel/Main.java:679-694 | a null type is an invalid argument; a lookup1 failure passes through; a first instance not of the type gives a type-mismatch NamingException; otherwise that instance |
| Naming.Registered | dsmk-kernel/src/main/java/org/dsmk/kernel/Main.java:728-755 | register throws exactly for a null or blank name or a null instance, always with an invalid-argument NamingException |
| Naming.RegisteredAppends | dsmk-kernel/src/main/java/org/dsmk/kernel/Main.java:736-747 | a successful register adds the name if new, appends the instance at the end of its bucket and leaves every other name's bucket as it was |
| Naming.RemoveFirst | dsmk-kernel/src/main/java/org/dsmk/kernel/Main.java:773 | Queue.remove drops one element when the instance is present and changes nothing when it is absent |
| Naming.RemoveFirstRemovesOne | dsmk-kernel/src/main/java/org/dsmk/kernel/Main.java:773 | removing a present instance takes exactly one occurrence of it out of the bucket (multiset difference) |
| Naming.RemoveFirstIsEarliest | dsmk-kernel/src/main/java/org/dsmk/kernel/Main.java:773 | the occurrence removed is the earliest one, and the rest keep their order |
| Naming.Unregistered | dsmk-kernel/src/main/java/org/dsmk/kernel/Main.java:757-789 | unRegister succeeds exactly when the name is valid, the instance non-null, the name has a bucket and the bucket holds the instance; each failing case gives its own NamingException (invalid argument, name not found, not registered) |
| Naming.UnregisteredRemovesOne | dsmk-kernel/src/main/java/org/dsmk/kernel/Main.java:771-784 | a successful unRegister keeps every name, even one whose bucket becomes empty, removes one occurrence of the instance and leaves other names alone |
| Naming.RegisterThenLookup | dsmk-kernel/src/main/java/org/dsmk/kernel/Main.java:736-751 | after register, lookupAll yields the old bucket followed by the instance, lookup1 still yields the earliest instance, the pair is registered, and every other name looks up as before |
| Naming.RegisterTwiceKeepsOrder | dsmk-kernel/src/main/java/org/dsmk/kernel/Main.java:736-747 | registering A then B under a new name makes lookupAll yield [A, B] |
| Naming.UnregisterTwiceFails | dsmk-kernel/src/main/java/org/dsmk/kernel/Main.java:757-789 | after removing a pair registered once, the pair is no longer bound and a second unRegister fails with not-registered |
| Naming.UnregisterLastLeavesEmptyBucket | dsmk-kernel/src/main/java/org/dsmk/kernel/Main.java:784 | removing the last instance leaves the name with an empty bucket, so lookupAll and lookup1 fail with the empty-bucket error, not the unknown-name one |
| Naming.WellFormedNamesPassGuards | dsmk-kernel/src/main/java/org/dsmk/kernel/Main.java:658-677 | in a registry built by register, a stored name never fails the name guards: lookupAll fails only on an emptied bucket, and unRegister only with not-registered |
| Naming.BoundIffLookedUp | dsmk-kernel/src/main/java/org/dsmk/kernel/Main.java:791-807 | a pair is registered exactly when lookupAll succeeds and yields the instance |
| Naming.NameServer.constructor | dsmk-kernel/src/main/java/org/dsmk/kernel/Main.java:610 | a new name server has an empty registry |
| Naming.NameServer.Register | dsmk-kernel/src/main/java/org/dsmk/kernel/Main.java:728-755 | on invalid arguments it throws and leaves the registry unchanged; otherwise the registry becomes Registered(old) and it returns a new handle holding exactly (name, instance, this server); the registry stays well formed |
| Naming.NameServer.UnRegister | dsmk-kernel/src/main/java/org/dsmk/kernel/Main.java:757-789 | throws Unregistered's exception and leaves the registry unchanged, or sets the registry to Unregistered(old) |
| Naming.NameServer.IsRegistered | dsmk-kernel/src/main/java/org/dsmk/kernel/Main.java:791-807 | true exactly when some bucket element of the name is that very object; false, never an exception, for a bad, unknown or empty name |
| Naming.NameServer.LookupAllTyped | dsmk-kernel/src/main/java/org/dsmk/kernel/Main.java:696-725 | a null type is an invalid argument; lookupAll's failure passes through; the call succeeds only when every instance has the type and otherwise fails with a type mismatch; on success it yields exactly the bucket's instances |
| Naming.NameRegistration.constructor | dsmk-kernel/src/main/java/org/dsmk/kernel/Main.java:618-622 | the handle stores the name, the instance and the server |
| Naming.NameRegistration.IsRegistered | dsmk-kernel/src/main/java/org/dsmk/kernel/Main.java:634-637 | the live membership of the stored pair in its server |
| Naming.NameRegistration.UnRegister | dsmk-kernel/src/main/java/org/dsmk/kernel/Main.java:639-642 | unRegister on its server with the stored pair |
| Lifecycle.Subsystem.Configure | dsmk-api/src/main/java/org/dsmk/api/Subsystem.java:14 | configure answers the scripted Result |
| Lifecycle.Subsystem.Start | dsmk-api/src/main/java/org/dsmk/api/Subsystem.java:16 | start answers the scripted Result |
| Lifecycle.Subsystem.Stop | dsmk-api/src/main/java/org/dsmk/api/Subsystem.java:18 | stop answers the scripted Result, or throws when scripted to |
| Lifecycle.FirstFailureIsFirst | dsmk-kernel/src/main/java/org/dsmk/kernel/Main.java:430-436 | every call before the first failure answers something other than NOT_OK, and the call at it answers NOT_OK |
| Lifecycle.ExecutedIsPrefixToFirstFailure | dsmk-kernel/src/main/java/org/dsmk/kernel/Main.java:413-424 | an abort-on-NOT_OK sweep makes a prefix of its plan: the whole plan, or up to and including a failing call with no failure before it |
| Lifecycle.SweepResultMeaning | dsmk-kernel/src/main/java/org/dsmk/kernel/Main.java:413-424 | the sweep answers NOT_OK exactly when some call fails, and then with the last executed call's Result unchanged; otherwise it answers Result.OK after the whole plan |
| Lifecycle.SweepThen | dsmk-kernel/src/main/java/org/dsmk/kernel/Main.java:340-356 | sweeping p then q: a NOT_OK in p ends everything there with p's answer; otherwise all of p runs, then q's sweep, with q's answer |
| Lifecycle.ConfigureCalls | dsmk-kernel/src/main/java/org/dsmk/kernel/Main.java:430-431 | initializeSubsystems configures each subsystem once, in list order, with the one map |
| Lifecycle.StartCalls | dsmk-kernel/src/main/java/org/dsmk/kernel/Main.java:415-416 | startSubsystems starts each subsystem once, in list order |
| Lifecycle.StopCalls | dsmk-kernel/src/main/java/org/dsmk/kernel/Main.java:505-508 | stopSubsystems stops each subsystem once, from the last index down to 0 |
| Lifecycle.GroupSweep | dsmk-kernel/src/main/java/org/dsmk/kernel/Main.java:340-356 | a NOT_OK configure ends a group before any start; otherwise every member was configured and the starts follow |
| Lifecycle.SweepOfThree | dsmk-kernel/src/main/java/org/dsmk/kernel/Main.java:310-333 | three sweeps run back to back: the first NOT_OK part ends the whole sweep with its answer, and each later part runs only after the earlier parts ran whole |
| Lifecycle.EveryConfigureGetsInitMap | dsmk-kernel/src/main/java/org/dsmk/kernel/Main.java:306-328 | every configure of a boot receives the same map |
| Lifecycle.GroupConfiguresGetInitMap | dsmk-kernel/src/main/java/org/dsmk/kernel/Main.java:340-342 | every configure of a group receives the map given to the group |
| Lifecycle.StartOnlyAfterWholeGroupConfigured | dsmk-kernel/src/main/java/org/dsmk/kernel/Main.java:340-356 | a start happens only after every subsystem of the group was configured, in order, with none answering NOT_OK |
| Lifecycle.LaterPartsOnlyAfterEarlierPassed | dsmk-kernel/src/main/java/org/dsmk/kernel/Main.java:310-333 | a three-part sweep reaches the second part only when the first passed whole, and the third only when the first two passed |
| Lifecycle.LaterGroupsOnlyAfterEarlierSucceeded | dsmk-kernel/src/main/java/org/dsmk/kernel/Main.java:310-333 | the ext group is reached only after the whole pre group was configured and started without a NOT_OK, and post only after pre and ext |
| Lifecycle.BootStopsAtFailingConfigure | dsmk-kernel/src/main/java/org/dsmk/kernel/Main.java:340-347 | pre = [A, B], ext = [C], post = [D] with B's configure failing: the calls are exactly A.configure and B.configure, and the answer is B's Result |
| Lifecycle.ShutdownOrder | dsmk-kernel/src/main/java/org/dsmk/kernel/Main.java:459-498 | pre = [A, B], ext = [C], post = [D] shut down as D, C, B, A |
| Lifecycle.ShutdownStopsEachOnce | dsmk-kernel/src/main/java/org/dsmk/kernel/Main.java:500-517 | the shutdown stops every position of every group exactly once: post, then ext, then pre, each in reverse |
| Loading.ParseInt | dsmk-kernel/src/main/java/org/dsmk/kernel/Main.java:242 | parseInt accepts only a non-empty digit string with an optional leading sign, and only values within Java's int range |
| Loading.ParseIntOfDigits | dsmk-kernel/src/main/java/org/dsmk/kernel/Main.java:242 | an unsigned digit string whose value fits an int parses to that value |
| Loading.ParseIntOfSigned | dsmk-kernel/src/main/java/org/dsmk/kernel/Main.java:242 | a '+' or '-' followed by digits whose signed value fits an int parses to that signed value; so a count of "-5" is accepted as -5 and loadSubsystem then scans no index |
| Loading.DecimalString | dsmk-kernel/src/main/java/org/dsmk/kernel/Main.java:245 | %d of a non-negative number is a non-empty digit string, with no leading zero, whose value is the number |
| Loading.ParseIntOfDecimalString | dsmk-kernel/src/main/java/org/dsmk/kernel/Main.java:242-245 | parseInt reads back the index %d writes |
| Loading.ClassNames | dsmk-kernel/src/main/java/org/dsmk/kernel/Main.java:244-253 | the scan finds at most one class name per index |
| Loading.LoadIgnoresOtherKeys | dsmk-kernel/src/main/java/org/dsmk/kernel/Main.java:238-253 | setting a property that does not start with "<group>." changes neither the group's count text nor any class name its scan reads |
| Loading.GroupsAreApart | dsmk-kernel/src/main/java/org/dsmk/kernel/Main.java:186-218 | the prefixes getPreSubsystems, getExtSubsystems and getPostSubsystems pass to loadSubsystem own disjoint keys, so no property belongs to two groups |
| Loading.ClassNamesGrow | dsmk-kernel/src/main/java/org/dsmk/kernel/Main.java:244-253 | scanning more indices only appends names |
| Loading.LoadClasses | dsmk-kernel/src/main/java/org/dsmk/kernel/Main.java:244-255 | the scan throws ClassNotFoundException exactly when a scanned name has no class, and otherwise yields one subsystem per present index, in index order, built by that name's factory |
| Loading.LoadSubsystem | dsmk-kernel/src/main/java/org/dsmk/kernel/Main.java:238-256 | a malformed count throws NumberFormatException; otherwise it throws ClassNotFoundException exactly when a scanned name has no class, and else returns one subsystem per present index, in index order, built by that name's factory |
| Microkernel.ConfigureAssignsPrefix | dsmk-kernel/src/main/java/org/dsmk/kernel/Main.java:540-555 | configure answers Result.OK exactly when all seven casts succeed, and otherwise its fixed NOT_OK Result; the fields before the first failure take their new values and the rest keep their old ones |
| Microkernel.ConfigureEmptyMapTakesDefaults | dsmk-kernel/src/main/java/org/dsmk/kernel/Main.java:542-549 | with an empty map and defaults of the right types, configure answers Result.OK, every group is empty and every default is taken |
| Microkernel.MissingBundleFailsConfigure | dsmk-kernel/src/main/java/org/dsmk/kernel/Main.java:546-547 | a message bundle that cannot be loaded fails configure even when the map supplies "messages", and the last three fields keep their values |
| Microkernel.BootstrapNamesAreValid | dsmk-kernel/src/main/java/org/dsmk/kernel/Main.java:363-371 | the three bootstrap names are non-blank, so register accepts them |
| Microkernel.RegisterNamesOnFreshServer | dsmk-kernel/src/main/java/org/dsmk/kernel/Main.java:358-385 | on a new name server with three non-null singletons, registerNames registers all three, each in its own one-element bucket |
| Microkernel.UnregisterNamesUndoesRegisterNames | dsmk-kernel/src/main/java/org/dsmk/kernel/Main.java:519-537 | unregisterNames after a full registerNames answers OK and leaves the three names with empty buckets |
| Microkernel.SecondUnregisterNamesFails | dsmk-kernel/src/main/java/org/dsmk/kernel/Main.java:523-535 | a second unregisterNames fails at the log server, answers Result.NOT_OK and changes nothing |
| Microkernel.BootResultMeaning | dsmk-kernel/src/main/java/org/dsmk/kernel/Main.java:306-336 | once registration succeeded, start answers OK exactly when no configure or start fails, and otherwise the NOT_OK Result of the last call made |
| Microkernel.Kernel.constructor | dsmk-kernel/src/main/java/org/dsmk/kernel/Main.java:70-105 | a new kernel has empty groups, null collaborators, no log, no name server and no registrations |
| Microkernel.Kernel.Configure | dsmk-kernel/src/main/java/org/dsmk/kernel/Main.java:540-555 | for defaults of the types the source builds (a DefaultLogServer, a String[]), settings and answer are Configured(old settings, map, defaults), as ConfigureAssignsPrefix describes; the kernel stays valid |
| Microkernel.Kernel.CreateInitMap | dsmk-kernel/src/main/java/org/dsmk/kernel/Main.java:441-449 | the map holds exactly the name server under NameServer's class name and the configuration under "config-properties" |
| Microkernel.Kernel.StartNamingServer | dsmk-kernel/src/main/java/org/dsmk/kernel/Main.java:387-393 | a new, empty, well-formed name server |
| Microkernel.Kernel.RegisterNames | dsmk-kernel/src/main/java/org/dsmk/kernel/Main.java:358-385 | registers the log server, the configuration and the arguments in order; the first failure ends it with the registration NOT_OK Result, leaving the later handles untouched; the handles made hold their exact pairs |
| Microkernel.Kernel.InitializeSubsystems | dsmk-kernel/src/main/java/org/dsmk/kernel/Main.java:426-439 | the calls made are the sweep over ConfigureCalls, and the answer is the first NOT_OK Result unchanged, or Result.OK |
| Microkernel.Kernel.StartSubsystems | dsmk-kernel/src/main/java/org/dsmk/kernel/Main.java:413-424 | the calls made are the sweep over StartCalls, and the answer is that sweep's |
| Microkernel.Kernel.InitializeAndStartSubsystems | dsmk-kernel/src/main/java/org/dsmk/kernel/Main.java:340-356 | the calls made are the sweep over the group's configures followed by its starts, and the answer is that sweep's |
| Microkernel.Kernel.Start | dsmk-kernel/src/main/java/org/dsmk/kernel/Main.java:258-338 | without a log server or log: the log-init NOT_OK Result and nothing changes. Otherwise the kernel holds a log and a new name server, and the registrations the kernel itself makes are RegisteredNames of the bootstrap singletons (subsystems here never touch the name server). A failed registration returns its Result with no lifecycle call made; else the calls are the sweep over pre, ext and post and the answer is BootResult |
| Microkernel.Kernel.StartGroups | dsmk-kernel/src/main/java/org/dsmk/kernel/Main.java:306-337 | the calls made are the sweep over the pre, ext and post plans, and the answer is BootResult of that plan |
| Microkernel.Kernel.StopSubsystems | dsmk-kernel/src/main/java/org/dsmk/kernel/Main.java:500-517 | stops every subsystem from the last to the first, past any NOT_OK Result or Exception, and answers Result.OK |
| Microkernel.Kernel.UnregisterNames | dsmk-kernel/src/main/java/org/dsmk/kernel/Main.java:519-537 | registry and outcome are UnregisteredNames: the handles are taken in registration order; a null handle throws NullPointerException; the first NamingException gives Result.NOT_OK; otherwise Result.OK |
| Microkernel.Kernel.Stop | dsmk-kernel/src/main/java/org/dsmk/kernel/Main.java:459-498 | without a log it throws NullPointerException and changes nothing. Otherwise it stops post, ext, pre (ShutdownPlan), applies the removals UnregisteredNames makes to the registry (subsystems' stops here never touch it), and answers the stop-OK Result unless unregistering threw |
| Microkernel.Kernel.StopGroups | dsmk-kernel/src/main/java/org/dsmk/kernel/Main.java:461-487 | the calls made are exactly ShutdownPlan: post, ext and pre, each in reverse |

## Left out

- Concurrency. The registry's concurrent collections, the non-atomic check-then-put in register and unRegister, and the JVM shutdown hook that calls stop are modelled as one sequential thread.
- Reflection and I/O are not modelled.
  - Class loading and instantiation in loadSubsystem are a factory table from class name to script. The `InstantiationException` and `IllegalAccessException` paths are not modelled.
  - The properties file, the system-property merge and the resource bundle are the `Defaults` parameter of configure. A `None` stands for a load that fails.
  - `main` and `createKernelConfiguration` are not part of this model.
- Logging. Every `kernelLog` call is a no-op. `kernelLog` is a boolean that says whether a log was obtained, and whether `logServer.getLog` succeeds is the `logAvailable` parameter of start. A log server that returns a null log is not modelled.
- The three group loaders at Main.java:186-218 only call loadSubsystem with the prefixes `PRE_GROUP`, `EXT_GROUP` and `POST_GROUP`, and are not modelled as methods of their own. `Loading.GroupsAreApart` and `Loading.LoadIgnoresOtherKeys` state what the three prefixes give: each group's load reads only its own keys.
- `logSubsystemsStartupOrder` (Main.java:395-411) and `loadMessages` are not modelled. They log or read resources, but see the `Microkernel.Kernel.Start` line on logSubsystemsStartupOrder below for the control flow the former can change.
- The `ERR_KERNEL_FAILED_ON_NAMING_SERVER_INIT` branch of start is not modelled. It is reached exactly when `getLog` returned null: `kernelLog.debug` inside startNamingServer (Main.java:388) then throws NullPointerException within the try at Main.java:288-295. That null-log case is left out above. Creating the name server itself cannot throw.
- Naming.LookupAll: lookupAll returns `nameList.iterator()` (Main.java:673). That is a live, weakly consistent iterator over the bucket's ConcurrentLinkedQueue: instances registered later may still show through it, and its `remove()` takes instances out of the registry. The model returns a snapshot of the bucket as a sequence.
- Naming.NameServer.LookupAllTyped: the order of the returned instances is not stated, only that they are exactly the bucket's. The list is built by an external persistent-list library whose `plus` is not part of this model.
- Exception and log message texts, the `message()` helper and the `String.format` patterns that build those texts are not modelled. A NamingException is told apart by a `NamingError` reason instead of its message. The source distinguishes these cases by message only.
- Instance equality in the registry's `contains` and `remove` (Main.java:772-773) is reference identity here, while Java uses `equals`. That is identity for the log server and the `String[]` arguments. The configuration is a `java.util.Properties`, a Hashtable, whose `equals` compares contents. For it, unRegister accepts and removes the earliest registered Properties with equal contents, not only the very object the model removes. `isRegistered` (Main.java:798) uses `==`, as the model does.
- A null value stored under a key of configure's map is not modelled. Neither is a subsystem list or property that is present but null.
- Microkernel.Kernel.Stop: two ways of leaving stop early are not modelled. A subsystem's stop() that throws a `java.lang.Error` rather than an `Exception` is caught neither at Main.java:509 nor at Main.java:484. It leaves stop at once, with no later subsystem stopped, no unregisterNames and no Result. A `name()` or `id()` that throws in the catch at Main.java:509-511 leaves stopSubsystems and is caught at Main.java:484. The remaining groups are then skipped, but unregisterNames still runs.
- Microkernel.Kernel.Start: `logSubsystemsStartupOrder` calls `name()` and `id()` on every subsystem before any configure, outside any try (Main.java:304, 407-411). One that throws ends start with that exception, which is not modelled.
- A subsystem's `name`, `id` and `attributes` are otherwise used only as log arguments and are not modelled. A subsystem's configure or start that throws, or that returns a null Result, is not modelled either; a Result with a null status is modelled.
- Loading.LoadSubsystem: it does not state that each subsystem is a fresh object.
- Loading.LoadSubsystem: the `ClassCastException` of `(Subsystem) clz.newInstance()` (Main.java:249), for a named class that exists but is not a Subsystem, is not modelled. The factory table maps every known class name to a subsystem.
- Microkernel.ConfigureAssignsPrefix: the `(List<Subsystem>)` casts at Main.java:542-544 are unchecked, so any `List` passes them, and a non-Subsystem element fails only later, when start or stop uses it. The model has no list value that is not a subsystem list, so `AsSubsystems` fails configure for every non-list value and never for a list.
- Loading.DecimalString: `%d` is modelled for a default locale whose digits are ASCII. `String.format` writes the index with the default locale's digits, so under a locale such as th_TH_TH the class keys loadSubsystem looks up hold non-ASCII digits, and a properties file written with ASCII indices yields no class names.
- Loading.ParseInt: only ASCII digits are accepted, while Java's parseInt also accepts other Unicode decimal digits.
- Microkernel.Kernel.Start: subsystems here are scripted and never use the name server they receive in the init map. In the source a subsystem may register in configure or start, for example an event bus. So the registry clause states the kernel's own effect, the registrations registerNames makes. It describes the registry after the boot only under that restriction.
- Microkernel.Kernel.Stop: for the same reason the model does not capture a subsystem's stop that unregisters its own names, or a bootstrap name, before unregisterNames runs; the latter would make unregisterNames answer NOT_OK. The registry clause states the removals unregisterNames makes, applied to the registry as stop found it.
- Microkernel.Kernel: the seven fields configure assigns are kept as one `settings` value. The groups are empty lists rather than null before configure. The source never reads them before a log is obtained, so this does not change behaviour.
