// ftw/run.py: the FTW runner. The kubectl calls, the HTTP probes, the config
// file and the FTW process are abstract outcomes given in an Environment; a
// run yields its exit status and the effects it had, in order.
module FtwRunner {
  import opened Wrappers
  import opened Strings
  import opened Values
  import opened Seqs

  // ---------------------------------------------------------------------------
  // Python's dict.get and truthiness on decoded JSON/YAML
  // ---------------------------------------------------------------------------

  /** v.get(key, default): Err when v is not a dict (AttributeError). */
  function PyGet(v: Value, key: string, default: Value): (r: Result<Value>)
    ensures r.Err? <==> !v.Object?
    ensures v.Object? ==> r.value == if key in v.fields then v.fields[key] else default
  {
    if !v.Object? then Err("AttributeError: object has no attribute 'get'")
    else if key in v.fields then Ok(v.fields[key]) else Ok(default)
  }

  /** bool(v). */
  predicate Truthy(v: Value)
  {
    match v
    case Null => false
    case Bool(b) => b
    case Int(i) => i != 0
    case Str(s) => s != ""
    case List(items) => items != []
    case Object(fields) => fields != map[]
  }

  /** The items a for loop visits before its body first calls .get: Err when
      they are not dicts or the value cannot be iterated. */
  function Entries(v: Value): Result<seq<Value>>
  {
    match v
    case List(items) => Ok(items)
    case Object(fields) => if fields == map[] then Ok([]) else Err("AttributeError: 'str' object has no attribute 'get'")
    case Str(s) => if s == "" then Ok([]) else Err("AttributeError: 'str' object has no attribute 'get'")
    case _ => Err("TypeError: object is not iterable")
  }

  // ---------------------------------------------------------------------------
  // get_gateway_service_info
  // ---------------------------------------------------------------------------

  const ClusterIP: Value := Str("ClusterIP")
  const DefaultPort: Value := Int(80)

  /** (ip_or_type, port, service_name). */
  datatype ServiceInfo = ServiceInfo(ipOrType: Value, port: Value, serviceName: Value)

  function GatewayLabel(gateway: string): string
  {
    "gateway.networking.k8s.io/gateway-name=" + gateway
  }

  /** Python's len(): defined for lists, dicts and strings, a TypeError otherwise. */
  function PyLen(v: Value): (n: Option<nat>)
    ensures n.Some? <==> v.List? || v.Object? || v.Str?
  {
    match v
    case List(items) => Some(|items|)
    case Object(fields) => Some(|fields|)
    case Str(s) => Some(|s|)
    case _ => None
  }

  /** The services list: exactly one item, or the exit-1 error. len() decides
      the count for a list, a dict or a string alike; items[0] of a
      one-character string is that string, and of a one-key dict a KeyError
      (decoded JSON has no integer keys). */
  function SingleService(data: Value, gateway: string): (r: Result<Value>)
    ensures var got := PyGet(data, "items", List([]));
      (r.Ok? ==> got.Ok? && PyLen(got.value) == Some(1)
                 && r.value == if got.value.List? then got.value.items[0] else got.value)
      && (got.Ok? && PyLen(got.value) == Some(0) ==> r == Err("Error: No service found with label " + GatewayLabel(gateway)))
      && (got.Ok? && PyLen(got.value).Some? && PyLen(got.value).value > 1 ==>
            r == Err("Error: Multiple services found with label " + GatewayLabel(gateway) + ", expected only one"))
  {
    match PyGet(data, "items", List([]))
    case Err(e) => Err(e)
    case Ok(items) =>
      match PyLen(items)
      case None => Err("TypeError: object has no len()")
      case Some(n) =>
        if n == 0 then Err("Error: No service found with label " + GatewayLabel(gateway))
        else if n > 1 then Err("Error: Multiple services found with label " + GatewayLabel(gateway) + ", expected only one")
        else if items.List? then Ok(items.items[0])
        else if items.Str? then Ok(items)
        else Err("KeyError: 0")
  }

  /** service.get(k1, {}).get(k2, default). */
  function Get2(v: Value, k1: string, k2: string, default: Value): Result<Value>
  {
    match PyGet(v, k1, Object(map[]))
    case Err(e) => Err(e)
    case Ok(inner) => PyGet(inner, k2, default)
  }

  /** The address: the first ingress entry's ip, for a LoadBalancer with ingress entries. */
  function Address(service: Value): Result<Value>
  {
    match Get2(service, "spec", "type", Str(""))
    case Err(e) => Err(e)
    case Ok(serviceType) =>
      if serviceType != Str("LoadBalancer") then Ok(ClusterIP)
      else
        match Get2(service, "status", "loadBalancer", Object(map[]))
        case Err(e) => Err(e)
        case Ok(lb) =>
          match PyGet(lb, "ingress", List([]))
          case Err(e) => Err(e)
          case Ok(ingress) =>
            if !Truthy(ingress) then Ok(ClusterIP)
            else if ingress.List? then PyGet(ingress.items[0], "ip", ClusterIP)
            else Err("TypeError: ingress is not a list")
  }

  /** The port of the first entry named "http" (80 if it has none); 80 if there is none. */
  function HttpPort(entries: seq<Value>): Result<Value>
  {
    if |entries| == 0 then Ok(DefaultPort)
    else
      match PyGet(entries[0], "name", Null)
      case Err(e) => Err(e)
      case Ok(name) => if name == Str("http") then PyGet(entries[0], "port", DefaultPort) else HttpPort(entries[1..])
  }

  /** The port search loop of get_gateway_service_info. */
  method FindHttpPort(ports: seq<Value>) returns (r: Result<Value>)
    ensures r == HttpPort(ports)
  {
    var port := DefaultPort;
    var i := 0;
    while i < |ports|
      invariant 0 <= i <= |ports|
      invariant HttpPort(ports) == HttpPort(ports[i..])
    {
      assert ports[i..][1..] == ports[i + 1..];
      var entry := ports[i];
      if !entry.Object? {
        return Err("AttributeError: object has no attribute 'get'");
      }
      var name := if "name" in entry.fields then entry.fields["name"] else Null;
      if name == Str("http") {
        port := if "port" in entry.fields then entry.fields["port"] else DefaultPort;
        return Ok(port);
      }
      i := i + 1;
    }
    return Ok(port);
  }

  /** The port is the first "http" entry's, and no earlier entry is named "http". */
  lemma {:induction false} HttpPortFirst(entries: seq<Value>)
    requires forall k :: 0 <= k < |entries| ==> entries[k].Object?
    ensures HttpPort(entries).Ok?
    ensures (forall k :: 0 <= k < |entries| ==> PyGet(entries[k], "name", Null) != Ok(Str("http"))) ==> HttpPort(entries) == Ok(DefaultPort)
    ensures forall i ::
      (0 <= i < |entries| && PyGet(entries[i], "name", Null) == Ok(Str("http"))
       && (forall k :: 0 <= k < i ==> PyGet(entries[k], "name", Null) != Ok(Str("http"))))
      ==> HttpPort(entries) == PyGet(entries[i], "port", DefaultPort)
  {
    if |entries| > 0 {
      HttpPortFirst(entries[1..]);
      assert forall k :: 1 <= k < |entries| ==> entries[1..][k - 1] == entries[k];
    }
  }

  /** get_gateway_service_info on the decoded kubectl output; Err means the
      script exits with status 1 before anything else happens. */
  method GetGatewayServiceInfo(output: Result<Value>, gateway: string) returns (r: Result<ServiceInfo>)
    ensures r == ServiceInfoOf(output, gateway)
  {
    if output.Err? {
      return Err(output.error);
    }
    var service := SingleService(output.value, gateway);
    if service.Err? {
      return Err(service.error);
    }
    var name := Get2(service.value, "metadata", "name", Str(""));
    if name.Err? {
      return Err(name.error);
    }
    var address := Address(service.value);
    if address.Err? {
      return Err(address.error);
    }
    var ports := Get2(service.value, "spec", "ports", List([]));
    if ports.Err? {
      return Err(ports.error);
    }
    var entries := Entries(ports.value);
    if entries.Err? {
      return Err(entries.error);
    }
    var port := FindHttpPort(entries.value);
    if port.Err? {
      return Err(port.error);
    }
    return Ok(ServiceInfo(address.value, port.value, name.value));
  }

  function ServiceInfoOf(output: Result<Value>, gateway: string): Result<ServiceInfo>
  {
    match output
    case Err(e) => Err(e)
    case Ok(data) =>
      match SingleService(data, gateway)
      case Err(e) => Err(e)
      case Ok(service) =>
        match Get2(service, "metadata", "name", Str(""))
        case Err(e) => Err(e)
        case Ok(name) =>
          match Address(service)
          case Err(e) => Err(e)
          case Ok(address) =>
            match Get2(service, "spec", "ports", List([]))
            case Err(e) => Err(e)
            case Ok(ports) =>
              match Entries(ports)
              case Err(e) => Err(e)
              case Ok(entries) =>
                match HttpPort(entries)
                case Err(e) => Err(e)
                case Ok(port) => Ok(ServiceInfo(address, port, name))
  }

  /** A LoadBalancer service's address is its first ingress ip (ClusterIP when
      that entry has none); any other service, or one without ingress entries,
      is ClusterIP. The name defaults to "". */
  lemma AddressClassification(service: Value, ingress: seq<Value>)
    requires service.Object? && "spec" in service.fields && service.fields["spec"].Object?
    requires "status" in service.fields && service.fields["status"].Object?
    requires "loadBalancer" in service.fields["status"].fields
    requires service.fields["status"].fields["loadBalancer"] == Object(map["ingress" := List(ingress)])
    requires forall k :: 0 <= k < |ingress| ==> ingress[k].Object?
    ensures var spec := service.fields["spec"].fields;
      var address := Address(service);
      ("type" !in spec || spec["type"] != Str("LoadBalancer") ==> address == Ok(ClusterIP))
      && ("type" in spec && spec["type"] == Str("LoadBalancer") && ingress == [] ==> address == Ok(ClusterIP))
      && ("type" in spec && spec["type"] == Str("LoadBalancer") && ingress != [] ==>
           address == Ok(if "ip" in ingress[0].fields then ingress[0].fields["ip"] else ClusterIP))
    ensures "metadata" !in service.fields ==> Get2(service, "metadata", "name", Str("")) == Ok(Str(""))
  {
  }

  /** Resolution succeeds only for exactly one service. */
  lemma ExactlyOneService(data: Value, gateway: string, items: seq<Value>)
    requires data == Object(map["items" := List(items)])
    ensures SingleService(data, gateway).Ok? <==> |items| == 1
    ensures |items| == 0 ==> SingleService(data, gateway) == Err("Error: No service found with label " + GatewayLabel(gateway))
  {
  }

  // ---------------------------------------------------------------------------
  // test_connectivity
  // ---------------------------------------------------------------------------

  /** One HTTP request: answered, URLError/OSError, or any other exception. */
  datatype Probe = Answered | UrlError | OtherError

  datatype ProbeEvent = Attempt(n: nat) | Sleep

  /** The first attempt in [from, n) that is answered. */
  function FirstAnswer(probe: nat -> Probe, from: nat, n: int): (r: Option<nat>)
    ensures r.Some? ==> from <= r.value < n && probe(r.value) == Answered
    decreases n - from
  {
    if from >= n then None else if probe(from) == Answered then Some(from) else FirstAnswer(probe, from + 1, n)
  }

  /** k attempts with a sleep between consecutive ones. */
  function AttemptsTrace(k: nat): seq<ProbeEvent>
  {
    if k == 0 then [] else if k == 1 then [Attempt(0)] else AttemptsTrace(k - 1) + [Sleep, Attempt(k - 1)]
  }

  /** How many attempts test_connectivity makes. */
  function AttemptsMade(maxRetries: int, probe: nat -> Probe): nat
  {
    match FirstAnswer(probe, 0, maxRetries)
    case Some(i) => i + 1
    case None => if maxRetries > 0 then maxRetries else 0
  }

  /** test_connectivity; probe gives the outcome of each attempt. */
  method TestConnectivity(maxRetries: int, probe: nat -> Probe) returns (ok: bool, trace: seq<ProbeEvent>)
    ensures ok == FirstAnswer(probe, 0, maxRetries).Some?
    ensures trace == AttemptsTrace(AttemptsMade(maxRetries, probe))
  {
    trace := [];
    var attempt: nat := 0;
    while attempt < maxRetries
      invariant attempt > 0 ==> attempt < maxRetries
      invariant FirstAnswer(probe, 0, maxRetries) == FirstAnswer(probe, attempt, maxRetries)
      invariant trace == if attempt == 0 then [] else AttemptsTrace(attempt) + [Sleep]
      decreases maxRetries - attempt
    {
      trace := trace + [Attempt(attempt)];
      assert trace == AttemptsTrace(attempt + 1);
      var outcome := probe(attempt);
      if outcome == Answered {
        return true, trace;
      }
      if attempt < maxRetries - 1 {
        trace := trace + [Sleep];
      } else {
        return false, trace;
      }
      attempt := attempt + 1;
    }
    return false, trace;
  }

  /** The attempts are numbered in order and each sleep sits between two attempts. */
  lemma {:induction false} AttemptsTraceShape(k: nat)
    ensures |AttemptsTrace(k)| == if k == 0 then 0 else 2 * k - 1
    ensures forall i :: 0 <= i < |AttemptsTrace(k)| ==>
      AttemptsTrace(k)[i] == if i % 2 == 0 then Attempt(i / 2) else Sleep
  {
    if k > 1 {
      AttemptsTraceShape(k - 1);
    }
  }

  /** At most maxRetries attempts, none when maxRetries <= 0; success is the first
      answered attempt and ends the loop; the trace never ends with a sleep. */
  lemma ConnectivityFacts(maxRetries: int, probe: nat -> Probe)
    ensures var made := AttemptsMade(maxRetries, probe);
      made <= (if maxRetries > 0 then maxRetries else 0)
      && (maxRetries <= 0 ==> made == 0 && FirstAnswer(probe, 0, maxRetries).None?)
      && (FirstAnswer(probe, 0, maxRetries).Some? ==>
        (probe(made - 1) == Answered && forall k :: 0 <= k < made - 1 ==> probe(k) != Answered))
      && (FirstAnswer(probe, 0, maxRetries).None? ==> forall k :: 0 <= k < maxRetries ==> probe(k) != Answered)
    ensures var t := AttemptsTrace(AttemptsMade(maxRetries, probe));
      t == [] || t[|t| - 1].Attempt?
  {
    FirstAnswerIsFirst(probe, 0, maxRetries);
    AttemptsTraceShape(AttemptsMade(maxRetries, probe));
  }

  lemma {:induction false} FirstAnswerIsFirst(probe: nat -> Probe, from: nat, n: int)
    ensures match FirstAnswer(probe, from, n)
      case None => forall k :: from <= k < n ==> probe(k) != Answered
      case Some(i) => forall k :: from <= k < i ==> probe(k) != Answered
    decreases n - from
  {
    if from < n && probe(from) != Answered {
      FirstAnswerIsFirst(probe, from + 1, n);
    }
  }

  // ---------------------------------------------------------------------------
  // The config overlay
  // ---------------------------------------------------------------------------

  /** yaml.safe_load(f) or {}. */
  function LoadedConfig(document: Value): Value
  {
    if Truthy(document) then document else Object(map[])
  }

  /** config['testoverride']['input'] gets dest_addr and port, the two dicts
      being created when absent; Err (a TypeError) when a level is not a dict. */
  function Overlay(config: Value, host: Value, port: Value): Result<Value>
  {
    if !config.Object? then Err("TypeError: config is not a dict")
    else
      var overrides := if "testoverride" in config.fields then config.fields["testoverride"] else Object(map[]);
      if !overrides.Object? then Err("TypeError: testoverride is not a dict")
      else
        var input := if "input" in overrides.fields then overrides.fields["input"] else Object(map[]);
        if !input.Object? then Err("TypeError: input is not a dict")
        else
          var newInput := Object(input.fields["dest_addr" := host]["port" := port]);
          Ok(Object(config.fields["testoverride" := Object(overrides.fields["input" := newInput])]))
  }

  /** The overlay sets exactly testoverride.input.dest_addr and .port and
      leaves every other key, at every level, as it was. */
  lemma OverlayKeepsOthers(config: Value, host: Value, port: Value)
    requires config.Object?
    requires "testoverride" in config.fields ==>
      (config.fields["testoverride"].Object?
       && ("input" in config.fields["testoverride"].fields ==> config.fields["testoverride"].fields["input"].Object?))
    ensures Overlay(config, host, port).Ok?
    ensures var c := Overlay(config, host, port).value;
      c.Object? && c.fields.Keys == config.fields.Keys + {"testoverride"}
      && (forall k :: k in config.fields && k != "testoverride" ==> c.fields[k] == config.fields[k])
      && At(c, ["testoverride", "input", "dest_addr"]) == Some(host)
      && At(c, ["testoverride", "input", "port"]) == Some(port)
    ensures var c := Overlay(config, host, port).value;
      var old_ := if "testoverride" in config.fields then config.fields["testoverride"].fields else map[];
      var o := c.fields["testoverride"].fields;
      o.Keys == old_.Keys + {"input"} && forall k :: k in old_ && k != "input" ==> o[k] == old_[k]
    ensures var c := Overlay(config, host, port).value;
      var overrides := if "testoverride" in config.fields then config.fields["testoverride"].fields else map[];
      var old_ := if "input" in overrides then overrides["input"].fields else map[];
      var i := c.fields["testoverride"].fields["input"].fields;
      i.Keys == old_.Keys + {"dest_addr", "port"} && forall k :: k in old_ && k != "dest_addr" && k != "port" ==> i[k] == old_[k]
  {
    OverlayTargets(config, host, port);
  }

  /** The overlay's two targets hold the new host and port. */
  lemma OverlayTargets(config: Value, host: Value, port: Value)
    requires Overlay(config, host, port).Ok?
    ensures var c := Overlay(config, host, port).value;
      At(c, ["testoverride", "input", "dest_addr"]) == Some(host)
      && At(c, ["testoverride", "input", "port"]) == Some(port)
  {
    var c := Overlay(config, host, port).value;
    var i := c.fields["testoverride"].fields["input"];
    assert At(c, ["testoverride", "input", "dest_addr"]) == At(i, ["dest_addr"]) by {
      assert ["testoverride", "input", "dest_addr"][1..] == ["input", "dest_addr"];
      assert ["input", "dest_addr"][1..] == ["dest_addr"];
    }
    assert At(i, ["dest_addr"]) == At(host, []);
    assert At(c, ["testoverride", "input", "port"]) == At(i, ["port"]) by {
      assert ["testoverride", "input", "port"][1..] == ["input", "port"];
      assert ["input", "port"][1..] == ["port"];
    }
    assert At(i, ["port"]) == At(port, []);
  }

  /** An empty document is the empty dict; the overlay of it holds only the two keys. */
  lemma EmptyDocumentOverlay(host: Value, port: Value)
    ensures LoadedConfig(Null) == Object(map[])
    ensures Overlay(LoadedConfig(Null), host, port)
      == Ok(Object(map["testoverride" := Object(map["input" := Object(map["dest_addr" := host, "port" := port])])]))
  {
    assert map[]["dest_addr" := host]["port" := port] == map["dest_addr" := host, "port" := port];
  }

  // ---------------------------------------------------------------------------
  // main
  // ---------------------------------------------------------------------------

  /** The command line; "" stands for an option that was not given. */
  datatype Args = Args(namespace: string, gateway: string, configFile: string, rulesDirectory: string,
                       kubeconfig: string, outputLog: string, outputFormat: string)

  /** What the cluster, the network and the processes do. */
  datatype Environment = Environment(
    services: Result<Value>,       // kubectl get services -o json, decoded
    localPort: nat,                // find_free_port
    portForwardStarts: bool,       // Popen of the port-forward succeeds
    probe: nat -> Probe,           // each connectivity attempt
    logFile: string,               // the log temp file's name
    logTimeoutParses: bool,        // float() accepts FTW_LOG_START_TIMEOUT_SECONDS ("5" when unset)
    configDocument: Result<Value>, // the config file, parsed (Null when empty)
    configFile: Result<string>,    // the modified config temp file's name, or the failure writing it
    scriptDir: string,
    ftwReturnCode: Result<int>,    // subprocess.run of go-ftw
    stopsWithinTimeout: bool)      // port_forward_process.wait(timeout=5) returns in time

  datatype Event =
    | PortForwardStarted(service: Value, localPort: nat, servicePort: Value)
    | Probed(host: Value, port: Value, attempts: seq<ProbeEvent>)
    | ConfigWritten(fileName: string, config: Value)
    | FtwRan(command: seq<string>, returnCode: int)
    | ConfigUnlinked(fileName: string)
    | Terminated
    | Killed

  datatype Run = Run(exitCode: int, events: seq<Event>)

  /** The process status of sys.exit(n) for an integer n: its low eight bits,
      so a negative return code (go-ftw killed by a signal) wraps. */
  function ExitStatus(n: int): (status: int)
    ensures 0 <= status < 256
    ensures 0 <= n < 256 ==> status == n
    ensures (status - n) % 256 == 0
  {
    n % 256
  }

  const MaxRetries: int := 30
  const Loopback: Value := Str("127.0.0.1")

  /** Where the probe and the tests go: the port-forward for ClusterIP, the service otherwise. */
  function Target(info: ServiceInfo, localPort: nat): (Value, Value)
  {
    if info.ipOrType == ClusterIP then (Loopback, Int(localPort)) else (info.ipOrType, info.port)
  }

  /** The go-ftw command line. */
  function FtwCommand(args: Args, scriptDir: string, configFile: string, logFile: string): (cmd: seq<string>)
  {
    ["go", "run", "-modfile=" + scriptDir + "/go.mod", "github.com/coreruleset/go-ftw/v2", "run",
      "-d", args.rulesDirectory, "--config", configFile, "--log-file", logFile, "--read-timeout", "10s"]
    + (if args.outputLog != "" then ["-f", args.outputLog] else [])
    + (if args.outputFormat != "" then ["--output", args.outputFormat] else [])
  }

  /** The port-forward shutdown of the finally block. */
  function Cleanup(stopsWithinTimeout: bool): seq<Event>
  {
    [Terminated] + (if stopsWithinTimeout then [] else [Killed])
  }

  /** The try block after the connectivity test: exit status and effects. */
  function AfterProbe(args: Args, env: Environment, host: Value, port: Value): (int, seq<Event>)
  {
    if !env.logTimeoutParses then (1, [])
    else match env.configDocument
    case Err(_) => (1, [])
    case Ok(document) =>
      match Overlay(LoadedConfig(document), host, port)
      case Err(_) => (1, [])
      case Ok(config) =>
        match env.configFile
        case Err(_) => (1, [])
        case Ok(name) =>
          var written := [ConfigWritten(name, config)];
          match env.ftwReturnCode
          case Err(_) => (1, written)
          case Ok(rc) => (ExitStatus(rc), written + [FtwRan(FtwCommand(args, env.scriptDir, name, env.logFile), rc), ConfigUnlinked(name)])
  }

  /** The whole try block: exit status, effects, and whether a port-forward was started. */
  function TryBlock(args: Args, env: Environment, info: ServiceInfo): (int, seq<Event>, bool)
  {
    var clusterIP := info.ipOrType == ClusterIP;
    if clusterIP && !env.portForwardStarts then (1, [], false)
    else
      var started := if clusterIP then [PortForwardStarted(info.serviceName, env.localPort, info.port)] else [];
      var (host, port) := Target(info, env.localPort);
      var probed := started + [Probed(host, port, AttemptsTrace(AttemptsMade(MaxRetries, env.probe)))];
      if FirstAnswer(env.probe, 0, MaxRetries).None? then (1, probed, clusterIP)
      else
        var (code, rest) := AfterProbe(args, env, host, port);
        (code, probed + rest, clusterIP)
  }

  /** main: every sys.exit and every exception exits with status 1, except the
      final sys.exit with the FTW return code; the finally block stops a started
      port-forward on every path. */
  function FtwRun(args: Args, env: Environment): Run
  {
    match ServiceInfoOf(env.services, args.gateway)
    case Err(_) => Run(1, [])
    case Ok(info) =>
      var (code, events, started) := TryBlock(args, env, info);
      Run(code, events + if started then Cleanup(env.stopsWithinTimeout) else [])
  }

  /** main, step by step. */
  method RunFtw(args: Args, env: Environment) returns (run: Run)
    ensures run == FtwRun(args, env)
  {
    var resolved := GetGatewayServiceInfo(env.services, args.gateway);
    if resolved.Err? {
      return Run(1, []);
    }
    var info := resolved.value;
    var portForwardStarted := false;
    var targetHost := info.ipOrType;
    var targetPort := info.port;
    var code, events := RunTryBlock(args, env, info);
    ghost var t := TryBlock(args, env, info);
    TryBlockStarted(args, env, info);
    FtwRunUnfold(args, env, info);
    if info.ipOrType == ClusterIP && env.portForwardStarts {
      portForwardStarted := true;
    }
    // finally
    if portForwardStarted {
      events := events + [Terminated];
      if !env.stopsWithinTimeout {
        events := events + [Killed];
      }
      assert events == t.1 + Cleanup(env.stopsWithinTimeout);
    }
    run := Run(code, events);
  }

  /** The try block of main, with sys.exit as an early return. */
  method RunTryBlock(args: Args, env: Environment, info: ServiceInfo) returns (code: int, events: seq<Event>)
    ensures (code, events) == (TryBlock(args, env, info).0, TryBlock(args, env, info).1)
  {
    events := [];
    var targetHost, targetPort := info.ipOrType, info.port;
    if info.ipOrType == ClusterIP {
      if !env.portForwardStarts {
        return 1, events;
      }
      events := [PortForwardStarted(info.serviceName, env.localPort, info.port)];
      targetHost, targetPort := Loopback, Int(env.localPort);
    }
    assert (targetHost, targetPort) == Target(info, env.localPort);
    var reachable, attempts := TestConnectivity(MaxRetries, env.probe);
    events := events + [Probed(targetHost, targetPort, attempts)];
    if !reachable {
      return 1, events;
    }
    ghost var pre := if info.ipOrType == ClusterIP then [PortForwardStarted(info.serviceName, env.localPort, info.port)] else [];
    assert events == pre + [Probed(targetHost, targetPort, AttemptsTrace(AttemptsMade(MaxRetries, env.probe)))];
    var rest;
    code, rest := RunAfterProbe(args, env, targetHost, targetPort);
    events := events + rest;
  }

  /** The try block after the connectivity test. */
  method RunAfterProbe(args: Args, env: Environment, targetHost: Value, targetPort: Value) returns (code: int, events: seq<Event>)
    ensures (code, events) == AfterProbe(args, env, targetHost, targetPort)
  {
    events := [];
    if !env.logTimeoutParses {
      // float() raises ValueError: the exception leaves main with status 1
      return 1, events;
    }
    if env.configDocument.Err? {
      return 1, events;
    }
    var config := LoadedConfig(env.configDocument.value);
    var overlaid := Overlay(config, targetHost, targetPort);
    if overlaid.Err? {
      return 1, events;
    }
    if env.configFile.Err? {
      return 1, events;
    }
    var name := env.configFile.value;
    events := [ConfigWritten(name, overlaid.value)];
    var ftwCmd := FtwCommand(args, env.scriptDir, name, env.logFile);
    if env.ftwReturnCode.Err? {
      return 1, events;
    }
    var rc := env.ftwReturnCode.value;
    events := events + [FtwRan(ftwCmd, rc), ConfigUnlinked(name)];
    return ExitStatus(rc), events;
  }

  /** A run that started a port-forward ends by terminating it, and by killing it
      when it outlives the wait; a run that started none stops nothing. */
  lemma CleanupOnEveryExit(args: Args, env: Environment)
    ensures var r := FtwRun(args, env);
      var started := exists i :: 0 <= i < |r.events| && r.events[i].PortForwardStarted?;
      (started ==> IsSuffix(Cleanup(env.stopsWithinTimeout), r.events))
      && (!started ==> forall i :: 0 <= i < |r.events| ==> r.events[i] != Terminated && r.events[i] != Killed)
  {
    var r := FtwRun(args, env);
    match ServiceInfoOf(env.services, args.gateway)
    case Err(_) =>
    case Ok(info) =>
      var (code, events, started) := TryBlock(args, env, info);
      TryBlockEvents(args, env, info);
      var tail := if started then Cleanup(env.stopsWithinTimeout) else [];
      assert r.events == events + tail;
      if started {
        assert r.events[|events| + |tail| - |tail|..] == tail;
        assert events[0].PortForwardStarted? && r.events[0] == events[0];
      } else {
        assert r.events == events;
      }
  }

  /** The try block itself never stops the port-forward, and it starts one
      (as its first effect) exactly when it reports one started. */
  lemma TryBlockEvents(args: Args, env: Environment, info: ServiceInfo)
    ensures var (code, events, started) := TryBlock(args, env, info);
      (forall i :: 0 <= i < |events| ==> events[i] != Terminated && events[i] != Killed)
      && (started <==> exists i :: 0 <= i < |events| && events[i].PortForwardStarted?)
      && (started ==> events[0].PortForwardStarted?)
      && (started <==> info.ipOrType == ClusterIP && env.portForwardStarts)
  {
    var (code, events, started) := TryBlock(args, env, info);
    if started {
      assert events[0].PortForwardStarted?;
    }
  }

  /** Past the connectivity test: the exit status of the FTW run's code with the
      config written, run and unlinked, or status 1 with at most the config written. */
  lemma AfterProbeStatus(args: Args, env: Environment, host: Value, port: Value)
    ensures var (code, rest) := AfterProbe(args, env, host, port);
      var normal := env.logTimeoutParses && env.configDocument.Ok? && Overlay(LoadedConfig(env.configDocument.value), host, port).Ok?
        && env.configFile.Ok? && env.ftwReturnCode.Ok?;
      (normal ==>
        (code == ExitStatus(env.ftwReturnCode.value) && |rest| == 3
         && rest[1] == FtwRan(FtwCommand(args, env.scriptDir, env.configFile.value, env.logFile), env.ftwReturnCode.value)
         && rest[2] == ConfigUnlinked(env.configFile.value)))
      && (!normal ==> code == 1 && forall i :: 0 <= i < |rest| ==> rest[i].ConfigWritten?)
  {
  }

  /** The path on which main reaches its final sys.exit: the service resolves
      and is reachable, the log-start timeout parses, the config loads, overlays and is written, and go-ftw runs. */
  predicate NormalPath(args: Args, env: Environment, info: ServiceInfo)
  {
    var (host, port) := Target(info, env.localPort);
    (info.ipOrType != ClusterIP || env.portForwardStarts)
    && FirstAnswer(env.probe, 0, MaxRetries).Some?
    && env.logTimeoutParses
    && env.configDocument.Ok? && Overlay(LoadedConfig(env.configDocument.value), host, port).Ok?
    && env.configFile.Ok? && env.ftwReturnCode.Ok?
  }

  /** On the normal path the try block ends with go-ftw's run and the removal
      of the modified config, and its status is the FTW return code. */
  lemma TryBlockNormal(args: Args, env: Environment, info: ServiceInfo)
    requires NormalPath(args, env, info)
    ensures var (code, events, started) := TryBlock(args, env, info);
      code == ExitStatus(env.ftwReturnCode.value) && |events| >= 2
      && events[|events| - 2] == FtwRan(FtwCommand(args, env.scriptDir, env.configFile.value, env.logFile), env.ftwReturnCode.value)
      && events[|events| - 1] == ConfigUnlinked(env.configFile.value)
  {
    var (host, port) := Target(info, env.localPort);
    AfterProbeStatus(args, env, host, port);
  }

  /** Off the normal path the try block's status is 1 and go-ftw never ran. */
  lemma TryBlockOther(args: Args, env: Environment, info: ServiceInfo)
    requires !NormalPath(args, env, info)
    ensures var (code, events, started) := TryBlock(args, env, info);
      code == 1 && forall i :: 0 <= i < |events| ==> !events[i].FtwRan?
  {
    var (host, port) := Target(info, env.localPort);
    AfterProbeStatus(args, env, host, port);
  }

  /** The try block reports a started port-forward exactly for a ClusterIP
      service whose port-forward came up. */
  lemma TryBlockStarted(args: Args, env: Environment, info: ServiceInfo)
    ensures TryBlock(args, env, info).2 <==> info.ipOrType == ClusterIP && env.portForwardStarts
  {
  }

  /** Stopping the port-forward never runs go-ftw. */
  lemma CleanupNoFtwRan(stopsWithinTimeout: bool)
    ensures forall i :: 0 <= i < |Cleanup(stopsWithinTimeout)| ==> !Cleanup(stopsWithinTimeout)[i].FtwRan?
  {
  }

  /** A resolved run is the try block's effects followed by the finally block's. */
  lemma FtwRunUnfold(args: Args, env: Environment, info: ServiceInfo)
    requires ServiceInfoOf(env.services, args.gateway) == Ok(info)
    ensures var t := TryBlock(args, env, info);
      FtwRun(args, env) == Run(t.0, t.1 + if t.2 then Cleanup(env.stopsWithinTimeout) else [])
  {
  }

  /** On the normal path the exit status is the FTW return code's low eight bits, and go-ftw's
      run is followed by the removal of the modified config. */
  lemma NormalExitStatus(args: Args, env: Environment, info: ServiceInfo)
    requires ServiceInfoOf(env.services, args.gateway) == Ok(info) && NormalPath(args, env, info)
    ensures var r := FtwRun(args, env);
      r.exitCode == ExitStatus(env.ftwReturnCode.value)
      && exists i :: 0 <= i < |r.events| - 1 && r.events[i].FtwRan? && r.events[i + 1] == ConfigUnlinked(env.configFile.value)
  {
    var t := TryBlock(args, env, info);
    TryBlockNormal(args, env, info);
    FtwRunUnfold(args, env, info);
    var tail := if t.2 then Cleanup(env.stopsWithinTimeout) else [];
    var i := |t.1| - 2;
    PrefixIndexes(t.1, tail, i);
    assert FtwRun(args, env).events == t.1 + tail;
  }

  lemma PrefixIndexes(a: seq<Event>, b: seq<Event>, i: nat)
    requires i + 1 < |a|
    ensures (a + b)[i] == a[i] && (a + b)[i + 1] == a[i + 1] && i < |a + b| - 1
  {
  }

  lemma NoFtwRanInConcat(a: seq<Event>, b: seq<Event>)
    requires forall i :: 0 <= i < |a| ==> !a[i].FtwRan?
    requires forall i :: 0 <= i < |b| ==> !b[i].FtwRan?
    ensures forall i :: 0 <= i < |a + b| ==> !(a + b)[i].FtwRan?
  {
  }

  lemma OtherExitStatusResolved(args: Args, env: Environment, info: ServiceInfo)
    requires ServiceInfoOf(env.services, args.gateway) == Ok(info) && !NormalPath(args, env, info)
    ensures var r := FtwRun(args, env);
      r.exitCode == 1 && forall i :: 0 <= i < |r.events| ==> !r.events[i].FtwRan?
  {
    var t := TryBlock(args, env, info);
    TryBlockOther(args, env, info);
    FtwRunUnfold(args, env, info);
    var tail := if t.2 then Cleanup(env.stopsWithinTimeout) else [];
    assert forall i :: 0 <= i < |tail| ==> !tail[i].FtwRan? by {
      CleanupNoFtwRan(env.stopsWithinTimeout);
    }
    NoFtwRanInConcat(t.1, tail);
    assert FtwRun(args, env).events == t.1 + tail;
  }

  /** Off the normal path the exit status is 1 and go-ftw did not run to completion. */
  lemma OtherExitStatus(args: Args, env: Environment)
    requires var resolved := ServiceInfoOf(env.services, args.gateway);
      !(resolved.Ok? && NormalPath(args, env, resolved.value))
    ensures var r := FtwRun(args, env);
      r.exitCode == 1 && forall i :: 0 <= i < |r.events| ==> !r.events[i].FtwRan?
  {
    var resolved := ServiceInfoOf(env.services, args.gateway);
    if resolved.Ok? {
      OtherExitStatusResolved(args, env, resolved.value);
    }
  }

  /** Events in which no config was written and go-ftw did not run. */
  predicate NothingWrittenOrRun(events: seq<Event>)
  {
    forall i :: 0 <= i < |events| ==> !events[i].ConfigWritten? && !events[i].FtwRan?
  }

  lemma NothingWrittenOrRunConcat(a: seq<Event>, b: seq<Event>)
    requires NothingWrittenOrRun(a) && NothingWrittenOrRun(b)
    ensures NothingWrittenOrRun(a + b)
  {
  }

  /** A log-start timeout that float() rejects ends the try block with status 1
      before the config is read: nothing is written and go-ftw does not run.
      (A started port-forward is still stopped: CleanupOnEveryExit.) */
  lemma BadLogTimeoutExitsOne(args: Args, env: Environment, info: ServiceInfo)
    requires ServiceInfoOf(env.services, args.gateway) == Ok(info)
    requires !env.logTimeoutParses
    ensures FtwRun(args, env).exitCode == 1 && NothingWrittenOrRun(FtwRun(args, env).events)
  {
    var t := TryBlock(args, env, info);
    BadLogTimeoutTryBlock(args, env, info);
    FtwRunUnfold(args, env, info);
    var tail := if t.2 then Cleanup(env.stopsWithinTimeout) else [];
    assert NothingWrittenOrRun(tail) by {
      CleanupWritesNothing(env.stopsWithinTimeout);
    }
    NothingWrittenOrRunConcat(t.1, tail);
    assert FtwRun(args, env).events == t.1 + tail;
  }

  lemma CleanupWritesNothing(stopsWithinTimeout: bool)
    ensures NothingWrittenOrRun(Cleanup(stopsWithinTimeout)) && NothingWrittenOrRun([])
  {
  }

  lemma BadLogTimeoutTryBlock(args: Args, env: Environment, info: ServiceInfo)
    requires !env.logTimeoutParses
    ensures var t := TryBlock(args, env, info);
      t.0 == 1 && NothingWrittenOrRun(t.1)
  {
    var (host, port) := Target(info, env.localPort);
    assert AfterProbe(args, env, host, port) == (1, []);
  }

  /** The probe, and the tests, go to 127.0.0.1 and the local port for a
      ClusterIP service, and to the service's own address and port otherwise. */
  lemma ProbeTarget(args: Args, env: Environment, info: ServiceInfo)
    requires info.ipOrType != ClusterIP || env.portForwardStarts
    ensures var events := TryBlock(args, env, info).1;
      var i := if info.ipOrType == ClusterIP then 1 else 0;
      i < |events| && events[i].Probed?
      && (info.ipOrType == ClusterIP ==> events[i].host == Loopback && events[i].port == Int(env.localPort))
      && (info.ipOrType != ClusterIP ==> events[i].host == info.ipOrType && events[i].port == info.port)
  {
  }

  /** -f and --output are passed exactly when the options were given. */
  lemma FtwCommandOptions(args: Args, scriptDir: string, configFile: string, logFile: string)
    ensures var cmd := FtwCommand(args, scriptDir, configFile, logFile);
      |cmd| == 13 + (if args.outputLog != "" then 2 else 0) + (if args.outputFormat != "" then 2 else 0)
      && (args.outputLog != "" ==> cmd[13..15] == ["-f", args.outputLog])
      && (args.outputFormat != "" ==> cmd[|cmd| - 2..] == ["--output", args.outputFormat])
  {
    var base := ["go", "run", "-modfile=" + scriptDir + "/go.mod", "github.com/coreruleset/go-ftw/v2", "run",
      "-d", args.rulesDirectory, "--config", configFile, "--log-file", logFile, "--read-timeout", "10s"];
    assert |base| == 13;
    var f := if args.outputLog != "" then ["-f", args.outputLog] else [];
    var o := if args.outputFormat != "" then ["--output", args.outputFormat] else [];
    var cmd := FtwCommand(args, scriptDir, configFile, logFile);
    assert cmd == base + f + o;
    assert cmd[13..13 + |f|] == f;
    assert cmd[|cmd| - |o|..] == o;
  }
}
