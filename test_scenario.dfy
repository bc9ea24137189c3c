// test/framework/scenario.go: a test scenario's LIFO cleanup stack, the
// namespaces it created and the diagnostics dumped when the test failed.
// A registered cleanup function is modelled by what it does (its action) and
// by the cleanups it registers in turn while it runs; the Kubernetes calls
// are recorded in a trace and their errors are parameters. A require.NoError
// that fails marks the test failed; the goroutine exit that follows is left
// to the caller.
module TestScenario {
  import opened Wrappers
  import opened Strings
  import opened TestFramework
  import opened Values

  datatype CleanupAction =
    | DeleteNamespace(name: string)
    | RunCommand(command: Command)
    | DeleteObject(resource: string, namespace: string, name: string)
    | Custom(description: string)

  /** A function registered with OnCleanup. */
  datatype CleanupFn = CleanupFn(action: CleanupAction, registers: seq<CleanupFn>)

  /** A call the scenario made to the API server or to kubectl, in order,
      whether or not it succeeded. */
  datatype ApiCall =
    | Get(resource: string, namespace: string, name: string)
    | Create(resource: string, namespace: string, body: Value)
    | Update(resource: string, namespace: string, body: Value)
    | Exec(command: Command)

  /** The object CreateNamespace sends. */
  function NamespaceObject(name: string): Value
  {
    Object(map["metadata" := Object(map["name" := Str(name)])])
  }

  /** What the scenario did after the test body: a namespace dumped or a
      cleanup action run. */
  datatype Effect = Dumped(namespace: string) | Ran(action: CleanupAction)

  /** The order in which a cleanup pass runs the registered list: last first. */
  function RunOrder(fns: seq<CleanupFn>): (r: seq<CleanupFn>)
    ensures |r| == |fns|
  {
    if |fns| == 0 then [] else [fns[|fns| - 1]] + RunOrder(fns[..|fns| - 1])
  }

  /** The pass runs the list back to front. */
  lemma {:induction false} RunOrderReverses(fns: seq<CleanupFn>)
    ensures forall i :: 0 <= i < |fns| ==> RunOrder(fns)[i] == fns[|fns| - 1 - i]
  {
    if |fns| > 0 {
      var init := fns[..|fns| - 1];
      RunOrderReverses(init);
      assert forall i :: 0 < i < |fns| ==> RunOrder(fns)[i] == RunOrder(init)[i - 1];
    }
  }

  /** A function at the bottom of the stack runs last. */
  lemma {:induction false} RunOrderCons(fn: CleanupFn, fns: seq<CleanupFn>)
    ensures RunOrder([fn] + fns) == RunOrder(fns) + [fn]
    decreases |fns|
  {
    if |fns| == 0 {
      assert [fn] + fns == [fn];
    } else {
      var all := [fn] + fns;
      var init := fns[..|fns| - 1];
      assert all[..|all| - 1] == [fn] + init;
      assert all[|all| - 1] == fns[|fns| - 1];
      RunOrderCons(fn, init);
    }
  }

  /** The actions of the functions run, in the order they ran. */
  function Actions(run: seq<CleanupFn>): (r: seq<Effect>)
    ensures |r| == |run|
  {
    if |run| == 0 then [] else Actions(run[..|run| - 1]) + [Ran(run[|run| - 1].action)]
  }

  /** One effect per function run, in the order they ran. */
  lemma {:induction false} ActionsInOrder(run: seq<CleanupFn>)
    ensures forall i :: 0 <= i < |run| ==> Actions(run)[i] == Ran(run[i].action)
  {
    if |run| > 0 {
      ActionsInOrder(run[..|run| - 1]);
    }
  }

  /** The functions registered, in order, by the functions run. */
  function Registered(run: seq<CleanupFn>): seq<CleanupFn>
  {
    if |run| == 0 then [] else Registered(run[..|run| - 1]) + run[|run| - 1].registers
  }

  /** Running fns[i] after fns[i + 1..] adds its action and its
      registrations. */
  lemma RunOneMore(effects0: seq<Effect>, fns: seq<CleanupFn>, i: int)
    requires 0 <= i < |fns|
    ensures effects0 + Actions(RunOrder(fns[i..])) == effects0 + Actions(RunOrder(fns[i + 1..])) + [Ran(fns[i].action)]
    ensures Registered(RunOrder(fns[i..])) == Registered(RunOrder(fns[i + 1..])) + fns[i].registers
  {
    assert fns[i..] == [fns[i]] + fns[i + 1..];
    RunOrderCons(fns[i], fns[i + 1..]);
    var run := RunOrder(fns[i..]);
    assert run[..|run| - 1] == RunOrder(fns[i + 1..]);
  }

  class Scenario {
    const f: Framework
    var cleanups: seq<CleanupFn>
    var namespaces: seq<string>
    var failed: bool
    var effects: seq<Effect>
    var calls: seq<ApiCall>

    /** NewScenario, before its two t.Cleanup registrations (see FinishTest). */
    constructor (f: Framework)
      ensures this.f == f
      ensures cleanups == [] && namespaces == [] && !failed && effects == [] && calls == []
    {
      this.f := f;
      cleanups := [];
      namespaces := [];
      failed := false;
      effects := [];
      calls := [];
    }

    /** OnCleanup pushes fn on the stack. */
    method OnCleanup(fn: CleanupFn)
      modifies this
      ensures cleanups == old(cleanups) + [fn]
      ensures namespaces == old(namespaces) && failed == old(failed)
      ensures effects == old(effects) && calls == old(calls)
    {
      cleanups := cleanups + [fn];
    }

    /** Cleanup takes the list, leaves a fresh empty one, and runs the taken
        functions last-registered first; what they register lands in the
        fresh list and is not run by this pass. */
    method Cleanup()
      modifies this
      ensures effects == old(effects) + Actions(RunOrder(old(cleanups)))
      ensures cleanups == Registered(RunOrder(old(cleanups)))
      ensures namespaces == old(namespaces) && failed == old(failed) && calls == old(calls)
    {
      var fns := cleanups;
      ghost var effects0, namespaces0, failed0, calls0 := effects, namespaces, failed, calls;
      cleanups := [];
      var i := |fns|;
      while i > 0
        invariant 0 <= i <= |fns|
        invariant effects == effects0 + Actions(RunOrder(fns[i..]))
        invariant cleanups == Registered(RunOrder(fns[i..]))
        invariant namespaces == namespaces0 && failed == failed0 && calls == calls0
      {
        i := i - 1;
        var fn := fns[i];
        RunOneMore(effects0, fns, i);
        effects := effects + [Ran(fn.action)];
        cleanups := cleanups + fn.registers;
      }
      assert fns[0..] == fns;
    }

    /** CreateNamespace: on success the name is remembered for diagnostics
        and exactly one deletion is registered; a create error fails the test. */
    method CreateNamespace(name: string, createError: Option<string>)
      modifies this
      ensures calls == old(calls) + [Create("namespaces", "", NamespaceObject(name))]
      ensures createError.Some? ==>
        failed && cleanups == old(cleanups) && namespaces == old(namespaces)
      ensures createError.None? ==>
        failed == old(failed) && namespaces == old(namespaces) + [name]
        && cleanups == old(cleanups) + [CleanupFn(DeleteNamespace(name), [])]
      ensures effects == old(effects)
    {
      calls := calls + [Create("namespaces", "", NamespaceObject(name))];
      if createError.Some? {
        failed := true;
        return;
      }
      namespaces := namespaces + [name];
      OnCleanup(CleanupFn(DeleteNamespace(name), []));
    }

    /** GenerateNamespace: prefix, a dash and the three random bytes in
        lower-case hex; the name is returned only when the test goes on. */
    method GenerateNamespace(prefix: string, random: Result<seq<Byte>>, createError: Option<string>)
      returns (name: Option<string>)
      requires random.Ok? ==> |random.value| == 3
      modifies this
      ensures name.Some? <==> random.Ok? && createError.None?
      ensures name.Some? ==> name.value == prefix + "-" + Hex(random.value)
      ensures random.Err? ==>
        failed && cleanups == old(cleanups) && namespaces == old(namespaces) && calls == old(calls)
      ensures random.Ok? ==> calls == old(calls) + [Create("namespaces", "", NamespaceObject(prefix + "-" + Hex(random.value)))]
      ensures random.Ok? && createError.None? ==>
        namespaces == old(namespaces) + [name.value]
        && cleanups == old(cleanups) + [CleanupFn(DeleteNamespace(name.value), [])]
      ensures effects == old(effects)
    {
      if random.Err? {
        failed := true;
        return None;
      }
      var generated := prefix + "-" + Hex(random.value);
      CreateNamespace(generated, createError);
      name := if createError.None? then Some(generated) else None;
    }

    /** ApplyManifest: `kubectl apply -f path`; on success its `kubectl
        delete` is registered. */
    method ApplyManifest(namespace: string, path: string, applyError: Option<string>)
      modifies this
      ensures applyError.Some? ==> failed && cleanups == old(cleanups)
      ensures applyError.None? ==>
        failed == old(failed)
        && cleanups == old(cleanups)
           + [CleanupFn(RunCommand(Kubectl(f, namespace, ["delete", "-f", path, "--ignore-not-found=true"])), [])]
      ensures calls == old(calls) + [Exec(Kubectl(f, namespace, ["apply", "-f", path]))]
      ensures namespaces == old(namespaces) && effects == old(effects)
    {
      var apply := Kubectl(f, namespace, ["apply", "-f", path]);
      var delete := Kubectl(f, namespace, ["delete", "-f", path, "--ignore-not-found=true"]);
      calls := calls + [Exec(apply)];
      if applyError.Some? {
        failed := true;
        return;
      }
      cleanups := cleanups + [CleanupFn(RunCommand(delete), [])];
    }

    /** dumpOnFailure: nothing when the test passed, else every namespace the
        scenario created, in creation order. */
    method DumpOnFailure()
      modifies this
      ensures effects == old(effects) + Dumps(if failed then namespaces else [])
      ensures cleanups == old(cleanups) && namespaces == old(namespaces)
      ensures failed == old(failed) && calls == old(calls)
    {
      if !failed {
        assert Dumps([]) == [];
        return;
      }
      var i := 0;
      while i < |namespaces|
        invariant 0 <= i <= |namespaces|
        invariant effects == old(effects) + Dumps(namespaces[..i])
        invariant cleanups == old(cleanups) && namespaces == old(namespaces)
        invariant failed == old(failed) && calls == old(calls)
      {
        assert namespaces[..i + 1][..i] == namespaces[..i];
        effects := effects + [Dumped(namespaces[i])];
        i := i + 1;
      }
      assert namespaces[..i] == namespaces;
    }
  }

  /** One diagnostics dump per namespace, in order. */
  function Dumps(namespaces: seq<string>): (r: seq<Effect>)
    ensures |r| == |namespaces|
    ensures forall i :: 0 <= i < |r| ==> r[i] == Dumped(namespaces[i])
  {
    if |namespaces| == 0 then [] else Dumps(namespaces[..|namespaces| - 1]) + [Dumped(namespaces[|namespaces| - 1])]
  }

  /** The two functions NewScenario hands to t.Cleanup, in registration order. */
  datatype TestCleanup = ScenarioCleanup | DumpOnFailure

  const NewScenarioRegistrations: seq<TestCleanup> := [ScenarioCleanup, DumpOnFailure]

  /** The end of the test: testing.T runs its cleanups last-registered first,
      so the namespaces are dumped while they still exist and resources are
      deleted afterwards. */
  method FinishTest(s: Scenario)
    modifies s
    ensures s.effects
      == old(s.effects) + Dumps(if old(s.failed) then old(s.namespaces) else [])
         + Actions(RunOrder(old(s.cleanups)))
    ensures s.cleanups == Registered(RunOrder(old(s.cleanups)))
  {
    var registered := NewScenarioRegistrations;
    var i := |registered|;
    while i > 0
      invariant 0 <= i <= |registered|
      invariant i == 2 ==> s.effects == old(s.effects) && s.cleanups == old(s.cleanups)
                           && s.failed == old(s.failed) && s.namespaces == old(s.namespaces)
      invariant i == 1 ==> s.effects == old(s.effects) + Dumps(if old(s.failed) then old(s.namespaces) else [])
                           && s.cleanups == old(s.cleanups)
      invariant i == 0 ==>
        (s.effects
         == old(s.effects) + Dumps(if old(s.failed) then old(s.namespaces) else [])
            + Actions(RunOrder(old(s.cleanups)))
         && s.cleanups == Registered(RunOrder(old(s.cleanups))))
    {
      i := i - 1;
      match registered[i]
      case DumpOnFailure => s.DumpOnFailure();
      case ScenarioCleanup => s.Cleanup();
    }
  }

  /** Cleanup runs the registered functions last first. */
  lemma {:induction false} CleanupIsLifo(fns: seq<CleanupFn>, fn: CleanupFn)
    ensures RunOrder(fns + [fn]) == [fn] + RunOrder(fns)
  {
    assert (fns + [fn])[..|fns|] == fns;
  }

  /** When no function registers another, the pass leaves the list empty, so
      a second Cleanup runs nothing. */
  lemma {:induction false} CleanupIdempotent(run: seq<CleanupFn>)
    requires forall i :: 0 <= i < |run| ==> run[i].registers == []
    ensures Registered(run) == []
    ensures Actions(RunOrder(Registered(run))) == []
  {
    if |run| > 0 {
      CleanupIdempotent(run[..|run| - 1]);
    }
  }

  /** Each registered function runs exactly once per pass, and what it
      registers is kept, in order, for the next pass. */
  lemma {:induction false} RegisteredAppend(run: seq<CleanupFn>, more: seq<CleanupFn>)
    ensures Registered(run + more) == Registered(run) + Registered(more)
    decreases |more|
  {
    if |more| == 0 {
      assert run + more == run;
    } else {
      var init, last := more[..|more| - 1], more[|more| - 1];
      var all := run + more;
      assert all[..|all| - 1] == run + init;
      assert all[|all| - 1] == last;
      assert Registered(all) == Registered(run + init) + last.registers;
      RegisteredAppend(run, init);
    }
  }

  // ---------------------------------------------------------------------------
  // %x of a byte slice
  // ---------------------------------------------------------------------------

  type Byte = x: int | 0 <= x < 256

  predicate IsLowerHex(c: char)
  {
    '0' <= c <= '9' || 'a' <= c <= 'f'
  }

  /** One nibble as a lower-case hex digit. */
  function HexDigit(d: int): (c: char)
    requires 0 <= d < 16
    ensures IsLowerHex(c)
  {
    if d < 10 then ('0' as int + d) as char else ('a' as int + d - 10) as char
  }

  /** Two lower-case hex digits per byte, high nibble first. */
  function Hex(bs: seq<Byte>): (r: string)
    ensures |r| == 2 * |bs|
    ensures forall i :: 0 <= i < |r| ==> IsLowerHex(r[i])
  {
    if |bs| == 0 then "" else [HexDigit(bs[0] / 16), HexDigit(bs[0] % 16)] + Hex(bs[1..])
  }

  function HexValue(c: char): (v: nat)
    ensures v < 16
  {
    if '0' <= c <= '9' then c as int - '0' as int
    else if 'a' <= c <= 'f' then c as int - 'a' as int + 10
    else 0
  }

  /** Reading the digits back two at a time. */
  function Unhex(s: string): seq<Byte>
    decreases |s|
  {
    if |s| < 2 then [] else [HexValue(s[0]) * 16 + HexValue(s[1])] + Unhex(s[2..])
  }

  /** %x loses nothing: distinct random suffixes give distinct names. */
  lemma {:induction false} HexRoundTrip(bs: seq<Byte>)
    ensures Unhex(Hex(bs)) == bs
  {
    if |bs| > 0 {
      var r := Hex(bs);
      assert r[2..] == Hex(bs[1..]);
      assert HexValue(r[0]) == bs[0] / 16;
      assert HexValue(r[1]) == bs[0] % 16;
      HexRoundTrip(bs[1..]);
    }
  }

  /** A generated namespace name is the prefix, a dash and six lower-case hex
      digits, and the suffix determines the random bytes. */
  lemma GeneratedNameShape(prefix: string, bs: seq<Byte>)
    requires |bs| == 3
    ensures var n := prefix + "-" + Hex(bs);
            |n| == |prefix| + 7 && n[..|prefix|] == prefix && n[|prefix|] == '-'
            && (forall i :: |prefix| < i < |n| ==> IsLowerHex(n[i]))
            && Unhex(n[|prefix| + 1..]) == bs
  {
    var n := prefix + "-" + Hex(bs);
    assert n[|prefix| + 1..] == Hex(bs);
    HexRoundTrip(bs);
  }
}
