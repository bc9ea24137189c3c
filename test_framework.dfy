// test/framework/framework.go: which cluster the integration tests talk to,
// the kubectl command line built for it, and the port counter used for port
// forwarding. Reading the kubeconfig and building the clients are outcomes
// passed in; the clients themselves are not modelled.
module TestFramework {
  import opened Wrappers
  import opened Strings

  /** The cluster name used when no kind cluster is named. */
  const External: string := "external"

  datatype Framework = Framework(clusterName: string)

  /** What building the clients did, as seen from New: the output of
      `kind get kubeconfig` (or its error), and the errors, if any, of parsing
      it, of loading the default kubeconfig and of creating the two clients. */
  datatype Environment = Environment(
    kindClusterName: string,
    kindKubeconfig: Result<string>,
    parseError: Option<string>,
    loadError: Option<string>,
    kubeClientError: Option<string>,
    dynamicClientError: Option<string>)

  /** New: a kind cluster when KIND_CLUSTER_NAME is set, otherwise the default
      kubeconfig under the name "external"; every failing step ends it with
      its own wrapped error. */
  function New(env: Environment): (r: Result<Framework>)
    ensures r.Ok? && env.kindClusterName != "" ==> r.value.clusterName == env.kindClusterName
    ensures r.Ok? && env.kindClusterName == "" ==> r.value.clusterName == External
    ensures r.Ok? <==>
      (if env.kindClusterName != "" then env.kindKubeconfig.Ok? && env.parseError.None? else env.loadError.None?)
      && env.kubeClientError.None? && env.dynamicClientError.None?
  {
    var config: Result<string> :=
      if env.kindClusterName != "" then
        if env.kindKubeconfig.Err? then
          Err("failed to get kind kubeconfig for cluster " + Quote(env.kindClusterName) + ": " + env.kindKubeconfig.error)
        else if env.parseError.Some? then
          Err("failed to parse kind kubeconfig: " + env.parseError.value)
        else Ok(env.kindClusterName)
      else if env.loadError.Some? then
        Err("failed to load kubeconfig: " + env.loadError.value)
      else Ok(External);
    if config.Err? then Err(config.error)
    else if env.kubeClientError.Some? then
      Err("failed to create kubernetes client: " + env.kubeClientError.value)
    else if env.dynamicClientError.Some? then
      Err("failed to create dynamic client: " + env.dynamicClientError.value)
    else Ok(Framework(config.value))
  }

  /** The kubectl context: none for the external cluster, "kind-<name>" otherwise. */
  function KubeContext(f: Framework): (r: string)
    ensures r == "" <==> f.clusterName == External
    ensures f.clusterName != External ==> HasPrefix(r, "kind-") && r[5..] == f.clusterName
  {
    if f.clusterName == External then "" else "kind-" + f.clusterName
  }

  /** kubectlArgs: "--context <ctx>" when there is a context, then "-n <ns>"
      when a namespace is given, then the arguments unchanged. */
  function KubectlArgs(f: Framework, namespace: string, args: seq<string>): (r: seq<string>)
    ensures var c := if KubeContext(f) != "" then 2 else 0;
            var n := if namespace != "" then 2 else 0;
            |r| == c + n + |args|
            && (KubeContext(f) != "" ==> r[..2] == ["--context", KubeContext(f)])
            && (namespace != "" ==> r[c..c + 2] == ["-n", namespace])
            && r[c + n..] == args
  {
    var ctx := KubeContext(f);
    var withContext: seq<string> := if ctx != "" then ["--context", ctx] else [];
    var withNamespace := if namespace != "" then withContext + ["-n", namespace] else withContext;
    withNamespace + args
  }

  datatype Command = Command(path: string, args: seq<string>)

  /** Kubectl: the kubectl binary with exactly the kubectlArgs arguments. */
  function Kubectl(f: Framework, namespace: string, args: seq<string>): (r: Command)
    ensures r.path == "kubectl"
    ensures |r.args| >= |args| && r.args[|r.args| - |args|..] == args
  {
    Command("kubectl", KubectlArgs(f, namespace, args))
  }

  /** Without KIND_CLUSTER_NAME no kubectl command carries a context: the
      arguments are the namespace flag, if any, and then the given ones. */
  lemma ExternalClusterHasNoContext(env: Environment, namespace: string, args: seq<string>)
    requires env.kindClusterName == "" && New(env).Ok?
    ensures Kubectl(New(env).value, namespace, args).args
            == (if namespace != "" then ["-n", namespace] else []) + args
  {
    var f := New(env).value;
    assert KubeContext(f) == "";
  }

  /** A named kind cluster is always addressed by its kind context. */
  lemma KindClusterContext(env: Environment, namespace: string, args: seq<string>)
    requires env.kindClusterName != "" && env.kindClusterName != External && New(env).Ok?
    ensures Kubectl(New(env).value, namespace, args).args[..2] == ["--context", "kind-" + env.kindClusterName]
  {
  }

  // ---------------------------------------------------------------------------
  // AllocatePort
  // ---------------------------------------------------------------------------

  const FirstPort: nat := 29000
  const Uint32Range: nat := 0x1_0000_0000

  /** The counter's value after k allocations, with uint32 wrap-around. */
  function PortAfter(k: nat): (p: nat)
    ensures p < Uint32Range
    ensures FirstPort + k < Uint32Range ==> p == FirstPort + k
  {
    (FirstPort + k) % Uint32Range
  }

  /** One more allocation moves the counter one step, wrapping at 2^32. */
  lemma PortAfterNext(k: nat)
    ensures PortAfter(k + 1) == (PortAfter(k) + 1) % Uint32Range
  {
    var a := FirstPort + k;
    var q := a / Uint32Range;
    assert a == q * Uint32Range + PortAfter(k);
    if PortAfter(k) + 1 < Uint32Range {
      assert a + 1 == q * Uint32Range + (PortAfter(k) + 1);
    } else {
      assert a + 1 == (q + 1) * Uint32Range;
    }
  }

  /** The package-level portCounter, incremented atomically by AllocatePort. */
  class PortCounter {
    var counter: nat

    ghost predicate Valid()
      reads this
    {
      counter < Uint32Range
    }

    constructor ()
      ensures Valid() && counter == FirstPort
    {
      counter := FirstPort;
    }

    /** The value before the increment, in decimal; the counter wraps at 2^32. */
    method AllocatePort() returns (port: string)
      requires Valid()
      modifies this
      ensures Valid()
      ensures port == NatToString(old(counter))
      ensures counter == (old(counter) + 1) % Uint32Range
    {
      port := NatToString(counter);
      counter := (counter + 1) % Uint32Range;
    }
  }

  /** n calls on a fresh counter. */
  method AllocatePorts(n: nat) returns (ports: seq<string>)
    ensures |ports| == n
    ensures forall i :: 0 <= i < n ==> ports[i] == NatToString(PortAfter(i))
  {
    var c := new PortCounter();
    ports := [];
    var k := 0;
    while k < n
      invariant 0 <= k <= n && c.Valid()
      invariant c.counter == PortAfter(k)
      invariant |ports| == k
      invariant forall i :: 0 <= i < k ==> ports[i] == NatToString(PortAfter(i))
    {
      var p := c.AllocatePort();
      PortAfterNext(k);
      ports := ports + [p];
      k := k + 1;
    }
  }

  /** The first port handed out is "29000". */
  lemma FirstAllocatedPort()
    ensures NatToString(PortAfter(0)) == "29000"
  {
    assert NatToString(29000) == NatToString(2900) + ['0'];
    assert NatToString(2900) == NatToString(290) + ['0'];
    assert NatToString(290) == NatToString(29) + ['0'];
    assert NatToString(29) == NatToString(2) + ['9'];
  }

  /** Until the counter wraps, no port is handed out twice. */
  lemma AllocatedPortsDistinct(i: nat, j: nat)
    requires i < j && FirstPort + j < Uint32Range
    ensures NatToString(PortAfter(i)) != NatToString(PortAfter(j))
  {
    if NatToString(PortAfter(i)) == NatToString(PortAfter(j)) {
      NatToStringInjective(PortAfter(i), PortAfter(j));
    }
  }
}
