/** The kernel (org.dsmk.kernel.Main): configure takes the three subsystem
    groups and the kernel's collaborators from a map, start boots the name
    server, registers the bootstrap singletons and drives the groups through
    configure and start, and stop drives them through stop in reverse before
    unregistering the singletons. Logging is a no-op in this model. */
module Microkernel {
  import opened Lang
  import opened Results
  import opened Naming
  import opened Lifecycle

  /** Names of the bootstrap singletons in the name server. */
  const LOG_SERVER_NAME: string := "org.dsmk.api.LogServer"     // LogServer.class.getName()
  const CONFIG_PROPERTIES_NAME: string := "dsmk-conf.properties"
  const STARTUP_ARGUMENTS_NAME: string := "startup-arguments"

  /** Keys of the map every subsystem's configure receives. */
  const NAME_SERVER_KEY: string := "org.dsmk.api.NameServer"    // NameServer.class.getName()
  const CONFIG_PROPERTIES_KEY: string := "config-properties"

  /** Keys of the map the kernel's own configure reads. */
  const PRE_SUBSYSTEMS_KEY: string := "pre-subsystems"
  const EXT_SUBSYSTEMS_KEY: string := "ext-subsystems"
  const POST_SUBSYSTEMS_KEY: string := "post-subsystems"
  const LOG_SERVER_KEY: string := "log-server"
  const MESSAGES_KEY: string := "messages"
  const STARTUP_ARGUMENTS_KEY: string := "startup-arguments"

  /** The types configure casts to. */
  const LOG_SERVER_TYPE: TypeName := "org.dsmk.api.LogServer"
  const RESOURCE_BUNDLE_TYPE: TypeName := "java.util.ResourceBundle"
  const PROPERTIES_TYPE: TypeName := "java.util.Properties"
  const STRING_ARRAY_TYPE: TypeName := "java.lang.String[]"

  /** The kernel's own Results. */
  const LOG_SERVER_INIT_FAILED: Result :=
    Result(Some(NotOk), "dsmk.kernel.err.notok", "dsmk.kernel.err.logserver.init.0001")
  const REGISTRATION_FAILED: Result :=
    Result(Some(NotOk), "dsmk.kernel.err.notok", "dsmk.kernel.err.logserver.registration.0001")
  const KERNEL_STARTED: Result := Result(Some(Ok), "dsmk.kernel.err.ok", "dsmk.kernel.msg.successful")
  const KERNEL_STOPPED: Result := Result(Some(Ok), "dsmk.kernel.msg.stop.ok", "dsmk.kernel.msg.successful")
  const CONFIGURE_FAILED: Result := Result(Some(NotOk), "kernel.configure.notok", "kernel.configure.err.00001")

  /** A value of the map given to the kernel's configure. */
  datatype ConfigValue = SubsystemList(subsystems: seq<Subsystem>) | Instance(obj: Obj)

  /** The defaults configure evaluates (eagerly, as Java evaluates arguments)
      for absent keys: a new DefaultLogServer, the "dsmkmessages" resource
      bundle (None when it cannot be loaded), the merged configuration
      properties (None when reading them fails) and a new empty String[]. */
  datatype Defaults = Defaults(logServer: Obj, messages: Option<Obj>, configuration: Option<Obj>, arguments: Obj)

  /** The defaults the source builds always pass their own casts: a new
      DefaultLogServer is a LogServer and a new String[]{} is a String[]. */
  predicate DefaultsTyped(d: Defaults)
  {
    HasType(d.logServer, LOG_SERVER_TYPE) && HasType(d.arguments, STRING_ARRAY_TYPE)
  }

  /** Map.getOrDefault */
  function GetOrDefault(config: map<string, ConfigValue>, key: string, default: ConfigValue): ConfigValue
  {
    if key in config then config[key] else default
  }

  /** The cast (List<Subsystem>) v; None stands for ClassCastException. */
  function AsSubsystems(v: ConfigValue): Option<seq<Subsystem>>
  {
    if v.SubsystemList? then Some(v.subsystems) else None
  }

  /** The cast (T) v for a class or interface T. */
  function AsInstanceOf(v: ConfigValue, t: TypeName): Option<Obj>
  {
    if v.Instance? && HasType(v.obj, t) then Some(v.obj) else None
  }

  function PreValue(config: map<string, ConfigValue>): Option<seq<Subsystem>>
  {
    AsSubsystems(GetOrDefault(config, PRE_SUBSYSTEMS_KEY, SubsystemList([])))
  }

  function ExtValue(config: map<string, ConfigValue>): Option<seq<Subsystem>>
  {
    AsSubsystems(GetOrDefault(config, EXT_SUBSYSTEMS_KEY, SubsystemList([])))
  }

  function PostValue(config: map<string, ConfigValue>): Option<seq<Subsystem>>
  {
    AsSubsystems(GetOrDefault(config, POST_SUBSYSTEMS_KEY, SubsystemList([])))
  }

  function LogServerValue(config: map<string, ConfigValue>, d: Defaults): Option<Obj>
  {
    AsInstanceOf(GetOrDefault(config, LOG_SERVER_KEY, Instance(d.logServer)), LOG_SERVER_TYPE)
  }

  function MessagesValue(config: map<string, ConfigValue>, d: Defaults): Option<Obj>
  {
    if d.messages.None? then None
    else AsInstanceOf(GetOrDefault(config, MESSAGES_KEY, Instance(d.messages.value)), RESOURCE_BUNDLE_TYPE)
  }

  function ConfigurationValue(config: map<string, ConfigValue>, d: Defaults): Option<Obj>
  {
    if d.configuration.None? then None
    else AsInstanceOf(GetOrDefault(config, CONFIG_PROPERTIES_KEY, Instance(d.configuration.value)), PROPERTIES_TYPE)
  }

  function ArgumentsValue(config: map<string, ConfigValue>, d: Defaults): Option<Obj>
  {
    AsInstanceOf(GetOrDefault(config, STARTUP_ARGUMENTS_KEY, Instance(d.arguments)), STRING_ARRAY_TYPE)
  }

  /** How many of configure's seven assignments complete before the first
      exception; 7 means configure succeeds. */
  function ConfiguredSteps(config: map<string, ConfigValue>, d: Defaults): (n: nat)
    ensures n <= 7
  {
    if PreValue(config).None? then 0
    else if ExtValue(config).None? then 1
    else if PostValue(config).None? then 2
    else if LogServerValue(config, d).None? then 3
    else if MessagesValue(config, d).None? then 4
    else if ConfigurationValue(config, d).None? then 5
    else if ArgumentsValue(config, d).None? then 6
    else 7
  }

  /** The seven fields of the kernel that configure assigns, as one value. */
  datatype Settings = Settings(
    preSubsystems: seq<Subsystem>, extSubsystems: seq<Subsystem>, postSubsystems: seq<Subsystem>,
    logServer: Obj?, messages: Obj?, configuration: Obj?, arguments: Obj?)

  /** configure on the settings: assign each field in order; the first
      failure ends it with a NOT_OK Result, keeping what was assigned. */
  function Configured(s: Settings, config: map<string, ConfigValue>, d: Defaults): (Settings, Result)
  {
    match PreValue(config)
    case None => (s, CONFIGURE_FAILED)
    case Some(pre) =>
      var s1 := s.(preSubsystems := pre);
      match ExtValue(config)
      case None => (s1, CONFIGURE_FAILED)
      case Some(ext) =>
        var s2 := s1.(extSubsystems := ext);
        match PostValue(config)
        case None => (s2, CONFIGURE_FAILED)
        case Some(post) =>
          var s3 := s2.(postSubsystems := post);
          match LogServerValue(config, d)
          case None => (s3, CONFIGURE_FAILED)
          case Some(log) =>
            var s4 := s3.(logServer := log);
            match MessagesValue(config, d)
            case None => (s4, CONFIGURE_FAILED)
            case Some(bundle) =>
              var s5 := s4.(messages := bundle);
              match ConfigurationValue(config, d)
              case None => (s5, CONFIGURE_FAILED)
              case Some(props) =>
                var s6 := s5.(configuration := props);
                match ArgumentsValue(config, d)
                case None => (s6, CONFIGURE_FAILED)
                case Some(args) => (s6.(arguments := args), OkResult())
  }

  /** configure answers OK exactly when all seven assignments succeed, and
      otherwise the fixed NOT_OK Result; the fields before the first failure
      take their new values and the rest keep their old ones. */
  lemma ConfigureAssignsPrefix(s: Settings, config: map<string, ConfigValue>, d: Defaults)
    ensures var (s', r) := Configured(s, config, d);
      var n := ConfiguredSteps(config, d);
      && r == (if n == 7 then OkResult() else CONFIGURE_FAILED)
      && s'.preSubsystems == (if n >= 1 then PreValue(config).value else s.preSubsystems)
      && s'.extSubsystems == (if n >= 2 then ExtValue(config).value else s.extSubsystems)
      && s'.postSubsystems == (if n >= 3 then PostValue(config).value else s.postSubsystems)
      && s'.logServer == (if n >= 4 then LogServerValue(config, d).value else s.logServer)
      && s'.messages == (if n >= 5 then MessagesValue(config, d).value else s.messages)
      && s'.configuration == (if n >= 6 then ConfigurationValue(config, d).value else s.configuration)
      && s'.arguments == (if n == 7 then ArgumentsValue(config, d).value else s.arguments)
  {
  }

  /** With an empty map and defaults of the right types, configure succeeds,
      every group is empty and every default is taken. */
  lemma ConfigureEmptyMapTakesDefaults(s: Settings, d: Defaults)
    requires DefaultsTyped(d)
    requires d.messages.Some? && HasType(d.messages.value, RESOURCE_BUNDLE_TYPE)
    requires d.configuration.Some? && HasType(d.configuration.value, PROPERTIES_TYPE)
    ensures Configured(s, map[], d)
            == (Settings([], [], [], d.logServer, d.messages.value, d.configuration.value, d.arguments), OkResult())
  {
  }

  /** A missing message bundle makes configure fail even when the map supplies
      "messages", because the default is evaluated before the lookup; the
      bundle, the configuration and the arguments keep their old values. */
  lemma MissingBundleFailsConfigure(s: Settings, config: map<string, ConfigValue>, d: Defaults)
    requires d.messages.None?
    ensures var (s', r) := Configured(s, config, d);
      && r == CONFIGURE_FAILED
      && s'.messages == s.messages && s'.configuration == s.configuration && s'.arguments == s.arguments
  {
  }

  /** registerNames on a registry: the log server, the configuration and the
      arguments, in that order, stopping at the first failure; also returns
      how many were registered. */
  function RegisteredNames(reg: Registry, logServer: Obj?, configuration: Obj?, arguments: Obj?): (Registry, nat)
  {
    match Registered(reg, Some(LOG_SERVER_NAME), logServer)
    case Raised(_) => (reg, 0)
    case Returned(r1) =>
      match Registered(r1, Some(CONFIG_PROPERTIES_NAME), configuration)
      case Raised(_) => (r1, 1)
      case Returned(r2) =>
        match Registered(r2, Some(STARTUP_ARGUMENTS_NAME), arguments)
        case Raised(_) => (r2, 2)
        case Returned(r3) => (r3, 3)
  }

  /** unregisterNames on a registry: unregister the three handles in order;
      a null handle throws NullPointerException, and the first
      NamingException ends the sweep with Result.NOT_OK. */
  function UnregisteredNames(reg: Registry, h1: NameRegistration?, h2: NameRegistration?, h3: NameRegistration?)
    : (Registry, Outcome<Result>)
  {
    if h1 == null then (reg, Raised(NullPointerException))
    else match Unregistered(reg, Some(h1.name), h1.instance)
    case Raised(_) => (reg, Returned(NotOkResult()))
    case Returned(r1) =>
      if h2 == null then (r1, Raised(NullPointerException))
      else match Unregistered(r1, Some(h2.name), h2.instance)
      case Raised(_) => (r1, Returned(NotOkResult()))
      case Returned(r2) =>
        if h3 == null then (r2, Raised(NullPointerException))
        else match Unregistered(r2, Some(h3.name), h3.instance)
        case Raised(_) => (r2, Returned(NotOkResult()))
        case Returned(r3) => (r3, Returned(OkResult()))
  }

  lemma BootstrapNamesAreValid()
    ensures !Blank(LOG_SERVER_NAME) && !Blank(CONFIG_PROPERTIES_NAME) && !Blank(STARTUP_ARGUMENTS_NAME)
  {
    assert LOG_SERVER_NAME[0] == 'o';
    assert CONFIG_PROPERTIES_NAME[0] == 'd';
    assert STARTUP_ARGUMENTS_NAME[0] == 's';
  }

  /** On a fresh name server, registerNames with three non-null singletons
      gives each its own one-element bucket. */
  lemma RegisterNamesOnFreshServer(logServer: Obj, configuration: Obj, arguments: Obj)
    ensures RegisteredNames(map[], logServer, configuration, arguments)
            == (map[LOG_SERVER_NAME := [logServer], CONFIG_PROPERTIES_NAME := [configuration],
                    STARTUP_ARGUMENTS_NAME := [arguments]], 3)
  {
    BootstrapNamesAreValid();
    var r1 := map[LOG_SERVER_NAME := [logServer]];
    var r2 := r1[CONFIG_PROPERTIES_NAME := [configuration]];
    var r3 := r2[STARTUP_ARGUMENTS_NAME := [arguments]];
    assert Bucket(map[], LOG_SERVER_NAME) + [logServer] == [logServer];
    assert Registered(map[], Some(LOG_SERVER_NAME), logServer) == Returned(r1);
    assert LOG_SERVER_NAME != CONFIG_PROPERTIES_NAME;
    assert Bucket(r1, CONFIG_PROPERTIES_NAME) + [configuration] == [configuration];
    assert Registered(r1, Some(CONFIG_PROPERTIES_NAME), configuration) == Returned(r2);
    assert LOG_SERVER_NAME != STARTUP_ARGUMENTS_NAME && CONFIG_PROPERTIES_NAME != STARTUP_ARGUMENTS_NAME;
    assert Bucket(r2, STARTUP_ARGUMENTS_NAME) + [arguments] == [arguments];
    assert Registered(r2, Some(STARTUP_ARGUMENTS_NAME), arguments) == Returned(r3);
  }

  /** stop undoes a successful registerNames on a fresh server: the three
      buckets are emptied (their names stay) and unregisterNames answers OK. */
  lemma UnregisterNamesUndoesRegisterNames(
    logServer: Obj, configuration: Obj, arguments: Obj,
    h1: NameRegistration, h2: NameRegistration, h3: NameRegistration)
    requires h1.name == LOG_SERVER_NAME && h1.instance == logServer
    requires h2.name == CONFIG_PROPERTIES_NAME && h2.instance == configuration
    requires h3.name == STARTUP_ARGUMENTS_NAME && h3.instance == arguments
    ensures UnregisteredNames(RegisteredNames(map[], logServer, configuration, arguments).0, h1, h2, h3)
            == (EmptiedBootstrap(), Returned(OkResult()))
  {
    RegisterNamesOnFreshServer(logServer, configuration, arguments);
    BootstrapNamesAreValid();
    var r0 := map[LOG_SERVER_NAME := [logServer], CONFIG_PROPERTIES_NAME := [configuration],
                  STARTUP_ARGUMENTS_NAME := [arguments]];
    var r1 := r0[LOG_SERVER_NAME := []];
    var r2 := r1[CONFIG_PROPERTIES_NAME := []];
    var r3 := r2[STARTUP_ARGUMENTS_NAME := []];
    UnregisterSingleton(r0, LOG_SERVER_NAME, logServer);
    UnregisterSingleton(r1, CONFIG_PROPERTIES_NAME, configuration);
    UnregisterSingleton(r2, STARTUP_ARGUMENTS_NAME, arguments);
    assert r3 == EmptiedBootstrap();
  }

  /** Unregistering the only instance of a name empties its bucket. */
  lemma UnregisterSingleton(reg: Registry, name: string, instance: Obj)
    requires !Blank(name) && name in reg && reg[name] == [instance]
    ensures Unregistered(reg, Some(name), instance) == Returned(reg[name := []])
  {
    assert RemoveFirst([instance], instance) == [];
  }

  /** The registry after stop has unregistered the bootstrap singletons. */
  function EmptiedBootstrap(): Registry
  {
    map[LOG_SERVER_NAME := [], CONFIG_PROPERTIES_NAME := [], STARTUP_ARGUMENTS_NAME := []]
  }

  /** A second stop's unregisterNames fails at the log server, answers NOT_OK
      and leaves the registry as it was. */
  lemma SecondUnregisterNamesFails(h1: NameRegistration, h2: NameRegistration, h3: NameRegistration)
    requires h1.name == LOG_SERVER_NAME
    ensures UnregisteredNames(EmptiedBootstrap(), h1, h2, h3) == (EmptiedBootstrap(), Returned(NotOkResult()))
  {
    BootstrapNamesAreValid();
    assert Unregistered(EmptiedBootstrap(), Some(LOG_SERVER_NAME), h1.instance).Raised?;
  }

  /** What start returns once every registration succeeded: the first NOT_OK
      Result of the boot unchanged, or the kernel's success Result. */
  function BootResult(plan: seq<Call>): Result
  {
    if SweepResult(plan).IsNotOK() then SweepResult(plan) else KERNEL_STARTED
  }

  /** start answers OK exactly when no configure or start of the boot failed;
      otherwise it answers NOT_OK with the Result of the last call made. */
  lemma BootResultMeaning(plan: seq<Call>)
    ensures BootResult(plan).IsOK() <==> forall j :: 0 <= j < |plan| ==> !Fails(plan[j])
    ensures !BootResult(plan).IsOK() ==>
      BootResult(plan).IsNotOK() && BootResult(plan) == Answer(Executed(plan)[|Executed(plan)| - 1])
  {
    SweepResultMeaning(plan);
  }


  /** The kernel: Main's fields and its configure, start and stop. The seven
      fields configure assigns are held together in settings. */
  class Kernel {
    var settings: Settings
    /** kernelLog != null: logServer.getLog succeeded in some start. */
    var kernelLog: bool
    var nameServer: NameServer?
    var logServerRegistration: NameRegistration?
    var configPropertiesRegistration: NameRegistration?
    var argumentsRegistration: NameRegistration?
    /** Every lifecycle call made on a subsystem, in order. */
    ghost var trace: seq<Call>

    /** A bootstrap registration exists only if the earlier ones and its own
        singleton do. */
    ghost predicate RegistrationChain()
      reads this`settings, this`logServerRegistration, this`configPropertiesRegistration
      reads this`argumentsRegistration
    {
      && (argumentsRegistration != null ==> configPropertiesRegistration != null && settings.arguments != null)
      && (configPropertiesRegistration != null ==> logServerRegistration != null && settings.configuration != null)
      && (logServerRegistration != null ==> settings.logServer != null)
    }

    /** The name server is well formed and every registration handle points
        to it. */
    ghost predicate HandlesShareServer()
      reads this`nameServer, this`logServerRegistration, this`configPropertiesRegistration
      reads this`argumentsRegistration, nameServer
    {
      && (nameServer != null ==> nameServer.Valid())
      && (logServerRegistration != null ==> logServerRegistration.server == nameServer)
      && (configPropertiesRegistration != null ==> configPropertiesRegistration.server == nameServer)
      && (argumentsRegistration != null ==> argumentsRegistration.server == nameServer)
    }

    ghost predicate Valid()
      reads this`settings, this`kernelLog, this`nameServer, this`logServerRegistration
      reads this`configPropertiesRegistration, this`argumentsRegistration, nameServer
    {
      && RegistrationChain()
      && (kernelLog ==> settings.logServer != null && nameServer != null)
      && HandlesShareServer()
    }

    /** The registration handles hold the first n bootstrap pairs. */
    ghost predicate HandlesHold(n: nat)
      reads this`settings, this`logServerRegistration, this`configPropertiesRegistration
      reads this`argumentsRegistration
    {
      && (n >= 1 ==> logServerRegistration != null && logServerRegistration.name == LOG_SERVER_NAME
                     && logServerRegistration.instance == settings.logServer)
      && (n >= 2 ==> configPropertiesRegistration != null && configPropertiesRegistration.name == CONFIG_PROPERTIES_NAME
                     && configPropertiesRegistration.instance == settings.configuration)
      && (n >= 3 ==> argumentsRegistration != null && argumentsRegistration.name == STARTUP_ARGUMENTS_NAME
                     && argumentsRegistration.instance == settings.arguments)
    }

    constructor ()
      ensures Valid() && trace == []
      ensures settings == Settings([], [], [], null, null, null, null)
      ensures !kernelLog && nameServer == null
      ensures logServerRegistration == configPropertiesRegistration == argumentsRegistration == null
    {
      settings := Settings([], [], [], null, null, null, null);
      kernelLog := false;
      nameServer := null;
      logServerRegistration, configPropertiesRegistration, argumentsRegistration := null, null, null;
      trace := [];
    }

    /** configure(config): take each field from the map or its default, in
        order; a failing cast (or a default that cannot be loaded) ends the
        method with a NOT_OK Result, keeping the fields assigned so far. */
    method Configure(config: map<string, ConfigValue>, defaults: Defaults) returns (r: Result)
      requires Valid() && DefaultsTyped(defaults)
      modifies this`settings
      ensures Valid()
      ensures (settings, r) == Configured(old(settings), config, defaults)
    {
      var pre := PreValue(config);
      if pre.None? { return CONFIGURE_FAILED; }
      settings := settings.(preSubsystems := pre.value);
      var ext := ExtValue(config);
      if ext.None? { return CONFIGURE_FAILED; }
      settings := settings.(extSubsystems := ext.value);
      var post := PostValue(config);
      if post.None? { return CONFIGURE_FAILED; }
      settings := settings.(postSubsystems := post.value);
      var log := LogServerValue(config, defaults);
      if log.None? { return CONFIGURE_FAILED; }
      settings := settings.(logServer := log.value);
      var bundle := MessagesValue(config, defaults);
      if bundle.None? { return CONFIGURE_FAILED; }
      settings := settings.(messages := bundle.value);
      var props := ConfigurationValue(config, defaults);
      if props.None? { return CONFIGURE_FAILED; }
      settings := settings.(configuration := props.value);
      var args := ArgumentsValue(config, defaults);
      if args.None? { return CONFIGURE_FAILED; }
      settings := settings.(arguments := args.value);
      return OkResult();
    }

    /** createInitMap(): the name server and the configuration properties. */
    function CreateInitMap(): (m: InitMap)
      reads this`nameServer, this`settings
      ensures m.Keys == {NAME_SERVER_KEY, CONFIG_PROPERTIES_KEY}
      ensures m[NAME_SERVER_KEY] == NameServerEntry(nameServer)
      ensures m[CONFIG_PROPERTIES_KEY] == PropertiesEntry(settings.configuration)
    {
      map[NAME_SERVER_KEY := NameServerEntry(nameServer), CONFIG_PROPERTIES_KEY := PropertiesEntry(settings.configuration)]
    }

    /** startNamingServer(): a new, empty name server. */
    method StartNamingServer()
      modifies this`nameServer
      ensures fresh(nameServer) && nameServer.Valid() && nameServer.registry == map[]
    {
      nameServer := new NameServer();
    }

    /** registerNames(): register the log server, the configuration and the
        arguments; the first NamingException ends it with a NOT_OK Result. */
    method RegisterNames() returns (r: Result)
      requires nameServer != null && nameServer.Valid() && RegistrationChain()
      requires kernelLog ==> settings.logServer != null
      modifies this`logServerRegistration, this`configPropertiesRegistration, this`argumentsRegistration
      modifies nameServer
      ensures Valid()
      ensures var (reg, n) := RegisteredNames(old(nameServer.registry), settings.logServer,
                                              settings.configuration, settings.arguments);
        && nameServer.registry == reg
        && r == (if n == 3 then OkResult() else REGISTRATION_FAILED)
        && HandlesHold(n)
        && (n < 1 ==> logServerRegistration == old(logServerRegistration))
        && (n < 2 ==> configPropertiesRegistration == old(configPropertiesRegistration))
        && (n < 3 ==> argumentsRegistration == old(argumentsRegistration))
    {
      BootstrapNamesAreValid();
      var o := nameServer.Register(Some(LOG_SERVER_NAME), settings.logServer);
      if o.Raised? {
        return REGISTRATION_FAILED;
      }
      logServerRegistration := o.value;
      o := nameServer.Register(Some(CONFIG_PROPERTIES_NAME), settings.configuration);
      if o.Raised? {
        return REGISTRATION_FAILED;
      }
      configPropertiesRegistration := o.value;
      o := nameServer.Register(Some(STARTUP_ARGUMENTS_NAME), settings.arguments);
      if o.Raised? {
        return REGISTRATION_FAILED;
      }
      argumentsRegistration := o.value;
      return OkResult();
    }

    /** initializeSubsystems(subsystems, initMap): configure each in order
        with the same map, returning the first NOT_OK Result unchanged. */
    method InitializeSubsystems(subsystems: seq<Subsystem>, initMap: InitMap) returns (r: Result)
      modifies this`trace
      ensures trace == old(trace) + Executed(ConfigureCalls(subsystems, initMap))
      ensures r == SweepResult(ConfigureCalls(subsystems, initMap))
    {
      ghost var plan := ConfigureCalls(subsystems, initMap);
      var i := 0;
      while i < |subsystems|
        invariant 0 <= i <= |subsystems|
        invariant trace == old(trace) + plan[..i]
        invariant forall j :: 0 <= j < i ==> !Fails(plan[j])
      {
        var subsys := subsystems[i];
        var result := subsys.Configure(initMap);
        trace := trace + [Call.Configure(subsys, initMap)];
        assert plan[..i + 1] == plan[..i] + [plan[i]];
        AppendIsAssociative(old(trace), plan[..i], [plan[i]]);
        if result.IsNotOK() {
          FirstFailureIs(plan, i);
          SweepStoppedAt(plan, i);
          return result;
        }
        i := i + 1;
      }
      FirstFailureIs(plan, |plan|);
      SweepPassed(plan);
      assert plan[..i] == plan;
      return OkResult();
    }

    /** startSubsystems(subsystems): start each in order, returning the first
        NOT_OK Result unchanged. */
    method StartSubsystems(subsystems: seq<Subsystem>) returns (r: Result)
      modifies this`trace
      ensures trace == old(trace) + Executed(StartCalls(subsystems))
      ensures r == SweepResult(StartCalls(subsystems))
    {
      ghost var plan := StartCalls(subsystems);
      var i := 0;
      while i < |subsystems|
        invariant 0 <= i <= |subsystems|
        invariant trace == old(trace) + plan[..i]
        invariant forall j :: 0 <= j < i ==> !Fails(plan[j])
      {
        var subsys := subsystems[i];
        var result := subsys.Start();
        trace := trace + [Call.Start(subsys)];
        assert plan[..i + 1] == plan[..i] + [plan[i]];
        AppendIsAssociative(old(trace), plan[..i], [plan[i]]);
        if result.IsNotOK() {
          FirstFailureIs(plan, i);
          SweepStoppedAt(plan, i);
          return result;
        }
        i := i + 1;
      }
      FirstFailureIs(plan, |plan|);
      SweepPassed(plan);
      assert plan[..i] == plan;
      return OkResult();
    }

    /** initializeAndStartSubsystems(subsystems, initMap): configure the whole
        group, and only then start it. */
    method InitializeAndStartSubsystems(subsystems: seq<Subsystem>, initMap: InitMap) returns (r: Result)
      modifies this`trace
      ensures trace == old(trace) + Executed(GroupPlan(subsystems, initMap))
      ensures r == SweepResult(GroupPlan(subsystems, initMap))
    {
      GroupSweep(subsystems, initMap);
      var initResults := InitializeSubsystems(subsystems, initMap);
      if initResults.IsNotOK() {
        return initResults;
      }
      var startResults := StartSubsystems(subsystems);
      AppendIsAssociative(old(trace), ConfigureCalls(subsystems, initMap), Executed(StartCalls(subsystems)));
      return startResults;
    }

    /** start(): get the kernel log, start the name server, register the
        bootstrap singletons, then configure and start the pre, ext and post
        groups, stopping at the first NOT_OK Result. Nothing is rolled back.
        The registry clause states the kernel's own effect, what registerNames
        leaves; it describes the registry after the boot only because the
        scripted subsystems here never use the name server they receive. */
    method Start(logAvailable: bool) returns (r: Result)
      requires Valid()
      modifies this`kernelLog, this`nameServer, this`logServerRegistration
      modifies this`configPropertiesRegistration, this`argumentsRegistration, this`trace
      ensures Valid()
      ensures settings.logServer == null || !logAvailable ==> r == LOG_SERVER_INIT_FAILED && unchanged(this)
      ensures settings.logServer != null && logAvailable ==>
        var (reg, n) := RegisteredNames(map[], settings.logServer, settings.configuration, settings.arguments);
        && kernelLog && fresh(nameServer) && nameServer.registry == reg && HandlesHold(n)
        && (n < 3 ==> r == REGISTRATION_FAILED && trace == old(trace))
        && (n == 3 ==>
              var plan := BootPlan(settings.preSubsystems, settings.extSubsystems, settings.postSubsystems,
                                   CreateInitMap());
              trace == old(trace) + Executed(plan) && r == BootResult(plan))
    {
      if settings.logServer == null || !logAvailable {
        return LOG_SERVER_INIT_FAILED;
      }
      kernelLog := true;
      StartNamingServer();
      var registrationResult := RegisterNames();
      if registrationResult.IsNotOK() {
        return registrationResult;
      }
      var initMap := CreateInitMap();
      r := StartGroups(settings.preSubsystems, settings.extSubsystems, settings.postSubsystems, initMap);
    }

    /** The rest of start() once the names are registered: configure and
        start the pre, ext and post groups in turn, each only if the previous
        ones answered OK. */
    method StartGroups(pre: seq<Subsystem>, ext: seq<Subsystem>, post: seq<Subsystem>, initMap: InitMap)
      returns (r: Result)
      modifies this`trace
      ensures trace == old(trace) + Executed(BootPlan(pre, ext, post, initMap))
      ensures r == BootResult(BootPlan(pre, ext, post, initMap))
    {
      ghost var t0, gPre, gExt, gPost := trace, GroupPlan(pre, initMap), GroupPlan(ext, initMap), GroupPlan(post, initMap);
      SweepOfThree(gPre, gExt, gPost);
      var results := InitializeAndStartSubsystems(pre, initMap);
      if results.IsNotOK() {
        return results;
      }
      results := InitializeAndStartSubsystems(ext, initMap);
      if results.IsNotOK() {
        AppendIsAssociative(t0, gPre, Executed(gExt));
        return results;
      }
      results := InitializeAndStartSubsystems(post, initMap);
      AppendIsAssociative(t0, gPre, gExt);
      AppendIsAssociative(t0, gPre + gExt, Executed(gPost));
      if results.IsNotOK() {
        return results;
      }
      return KERNEL_STARTED;
    }

    /** stopSubsystems(subsystems): stop each from the last to the first; a
        NOT_OK Result or an exception does not end the sweep, and the method
        always answers Result.OK. */
    method StopSubsystems(subsystems: seq<Subsystem>) returns (r: Result)
      modifies this`trace
      ensures trace == old(trace) + StopCalls(subsystems)
      ensures r == OkResult()
    {
      var i := |subsystems| - 1;
      while i > -1
        invariant -1 <= i < |subsystems|
        invariant trace == old(trace) + StopCalls(subsystems[i + 1..])
      {
        var subsys := subsystems[i];
        var outcome := subsys.Stop();
        trace := trace + [Call.Stop(subsys)];
        assert subsystems[i..][1..] == subsystems[i + 1..];
        i := i - 1;
      }
      assert subsystems[0..] == subsystems;
      return OkResult();
    }

    /** unregisterNames(): unregister the log server, the configuration and
        the arguments in that order, stopping at the first failure. */
    method UnregisterNames() returns (o: Outcome<Result>)
      requires Valid() && nameServer != null
      modifies nameServer
      ensures Valid()
      ensures (nameServer.registry, o) == UnregisteredNames(old(nameServer.registry),
                 logServerRegistration, configPropertiesRegistration, argumentsRegistration)
    {
      if logServerRegistration == null {
        return Raised(NullPointerException);
      }
      var u := logServerRegistration.UnRegister();
      if u.Raised? {
        return Returned(NotOkResult());
      }
      if configPropertiesRegistration == null {
        return Raised(NullPointerException);
      }
      u := configPropertiesRegistration.UnRegister();
      if u.Raised? {
        return Returned(NotOkResult());
      }
      if argumentsRegistration == null {
        return Raised(NullPointerException);
      }
      u := argumentsRegistration.UnRegister();
      if u.Raised? {
        return Returned(NotOkResult());
      }
      return Returned(OkResult());
    }

    /** stop(): stop post, ext and pre in reverse, then unregister the
        bootstrap singletons. It answers the kernel's OK Result whatever the
        subsystems and the unregistrations answered; it throws
        NullPointerException when no kernel log was obtained, or when a
        bootstrap registration it reaches is missing. The registry clause
        states the kernel's own effect, the removals unregisterNames makes;
        it starts from the registry as it was before stop only because the
        scripted subsystems' stops never use the name server. */
    method Stop() returns (o: Outcome<Result>)
      requires Valid()
      modifies this`trace, nameServer
      ensures Valid()
      ensures !kernelLog ==>
        && o == Raised(NullPointerException) && trace == old(trace)
        && (nameServer != null ==> nameServer.registry == old(nameServer.registry))
      ensures kernelLog ==>
        var (reg, unregistered) := UnregisteredNames(old(nameServer.registry),
                                     logServerRegistration, configPropertiesRegistration, argumentsRegistration);
        && trace == old(trace) + ShutdownPlan(settings.preSubsystems, settings.extSubsystems, settings.postSubsystems)
        && nameServer.registry == reg
        && o == (if unregistered.Raised? then unregistered else Returned(KERNEL_STOPPED))
    {
      if !kernelLog {
        return Raised(NullPointerException);
      }
      StopGroups();
      var unregisterResult := UnregisterNames();
      if unregisterResult.Raised? {
        return unregisterResult;
      }
      return Returned(KERNEL_STOPPED);
    }

    /** The first part of stop(): stop the post, ext and pre groups in turn,
        whatever each stop answers. */
    method StopGroups()
      modifies this`trace
      ensures trace == old(trace) + ShutdownPlan(settings.preSubsystems, settings.extSubsystems, settings.postSubsystems)
    {
      var stopResult := StopSubsystems(settings.postSubsystems);
      stopResult := StopSubsystems(settings.extSubsystems);
      stopResult := StopSubsystems(settings.preSubsystems);
      ghost var post, ext, pre := StopCalls(settings.postSubsystems), StopCalls(settings.extSubsystems),
                                  StopCalls(settings.preSubsystems);
      AppendIsAssociative(old(trace), post, ext);
      AppendIsAssociative(old(trace), post + ext, pre);
    }
  }
}
