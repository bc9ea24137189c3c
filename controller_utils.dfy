// internal/controller/utils.go: the structured-logging helpers and
// CreateOrUpdate against an abstract object store.
module ControllerUtils {
  import opened Wrappers
  import opened Strings
  import opened Kube
  import opened Values

  // ---------------------------------------------------------------------------
  // LogInfo / LogDebug / LogError
  // ---------------------------------------------------------------------------

  /** DebugLevel: the verbosity LogDebug logs at. */
  const DebugLevel: nat := 1

  datatype Level = Info | Debug | Error(err: Option<string>)

  /** A log call: its level (verbosity 1 for debug), message and key/value list. */
  datatype LogRecord = LogRecord(level: Level, verbosity: nat, message: string, keysAndValues: seq<Value>)

  /** The key/value list every helper logs: the request first, then the caller's pairs. */
  function LogArgs(req: NamespacedName, keysAndValues: seq<Value>): (args: seq<Value>)
    ensures |args| == 4 + |keysAndValues|
    ensures args[..4] == [Str("namespace"), Str(req.namespace), Str("name"), Str(req.name)]
    ensures forall k :: 0 <= k < |keysAndValues| ==> args[4 + k] == keysAndValues[k]
  {
    [Str("namespace"), Str(req.namespace), Str("name"), Str(req.name)] + keysAndValues
  }

  /** How a logr sink reads a key/value list: consecutive elements form a
      pair, and an unpaired last element is not a field. */
  function Fields(keysAndValues: seq<Value>): (fields: seq<(Value, Value)>)
    ensures |fields| == |keysAndValues| / 2
    ensures forall j :: 0 <= j < |fields| ==> fields[j] == (keysAndValues[2 * j], keysAndValues[2 * j + 1])
    decreases |keysAndValues|
  {
    if |keysAndValues| < 2 then [] else [(keysAndValues[0], keysAndValues[1])] + Fields(keysAndValues[2..])
  }

  function LogMessage(kind: string, msg: string): string
  {
    kind + ": " + msg
  }

  function LogInfo(req: NamespacedName, kind: string, msg: string, keysAndValues: seq<Value>): LogRecord
  {
    LogRecord(Info, 0, LogMessage(kind, msg), LogArgs(req, keysAndValues))
  }

  function LogDebug(req: NamespacedName, kind: string, msg: string, keysAndValues: seq<Value>): LogRecord
  {
    LogRecord(Debug, DebugLevel, LogMessage(kind, msg), LogArgs(req, keysAndValues))
  }

  function LogError(req: NamespacedName, kind: string, err: Option<string>, msg: string, keysAndValues: seq<Value>): LogRecord
  {
    LogRecord(Error(err), 0, LogMessage(kind, msg), LogArgs(req, keysAndValues))
  }

  /** The fields a sink reads from any helper's record are the request's
      namespace and name, then exactly the fields of the caller's own list:
      prepending the request never shifts a caller's key onto a value. */
  lemma {:induction false} LogFields(req: NamespacedName, keysAndValues: seq<Value>)
    ensures Fields(LogArgs(req, keysAndValues))
      == [(Str("namespace"), Str(req.namespace)), (Str("name"), Str(req.name))] + Fields(keysAndValues)
  {
    var args := LogArgs(req, keysAndValues);
    assert args[2..][2..] == keysAndValues;
  }

  /** Every helper logs the request's fields ahead of the caller's, under the
      message "kind: msg"; only the level and the verbosity differ. */
  lemma LogRecordFields(req: NamespacedName, kind: string, err: Option<string>, msg: string, keysAndValues: seq<Value>)
    ensures forall r :: r in {LogInfo(req, kind, msg, keysAndValues), LogDebug(req, kind, msg, keysAndValues),
                              LogError(req, kind, err, msg, keysAndValues)} ==>
      Fields(r.keysAndValues) == [(Str("namespace"), Str(req.namespace)), (Str("name"), Str(req.name))] + Fields(keysAndValues)
      && HasPrefix(r.message, kind + ": ") && r.message[|kind| + 2..] == msg
    ensures LogDebug(req, kind, msg, keysAndValues).verbosity == DebugLevel
    ensures LogInfo(req, kind, msg, keysAndValues).verbosity == 0 && LogError(req, kind, err, msg, keysAndValues).verbosity == 0
  {
    LogFields(req, keysAndValues);
  }

  // ---------------------------------------------------------------------------
  // CreateOrUpdate
  // ---------------------------------------------------------------------------

  datatype GroupVersionKind = GroupVersionKind(group: string, version: string, kind: string)
  {
    predicate Empty() { group == "" && version == "" && kind == "" }
  }

  /** unstructured.Unstructured: type, identity, resource version and content. */
  datatype Unstructured = Unstructured(gvk: GroupVersionKind, namespace: string, name: string, resourceVersion: string, content: Value)

  const NamespaceDefault: string := "default"

  /** The key CreateOrUpdate looks the desired object up under. */
  function LookupKey(desired: Unstructured): (key: NamespacedName)
    ensures key.name == desired.name
    ensures key.namespace == (if desired.namespace == "" then "default" else desired.namespace)
  {
    NamespacedName(if desired.namespace == "" then NamespaceDefault else desired.namespace, desired.name)
  }

  function KeyOf(obj: Unstructured): NamespacedName
  {
    NamespacedName(obj.namespace, obj.name)
  }

  function Where(gvk: GroupVersionKind, name: string, namespace: string): string
  {
    gvk.kind + "/" + name + " in namespace " + namespace
  }

  /** An abstract API server for one kind of object. Reads of a key in
      getFaults fail with that error; creates and updates fail with
      createFault and updateFault when set. A write stores the object under
      its own namespace and name. */
  class ObjectStore {
    var objects: map<NamespacedName, Unstructured>
    var getFaults: map<NamespacedName, string>
    var createFault: Option<string>
    var updateFault: Option<string>

    constructor (objects: map<NamespacedName, Unstructured>, getFaults: map<NamespacedName, string>, createFault: Option<string>, updateFault: Option<string>)
      ensures this.objects == objects && this.getFaults == getFaults
      ensures this.createFault == createFault && this.updateFault == updateFault
    {
      this.objects := objects;
      this.getFaults := getFaults;
      this.createFault := createFault;
      this.updateFault := updateFault;
    }

    method Get(key: NamespacedName) returns (r: Read<Unstructured>)
      ensures r == Kube.Get(Cluster(objects, getFaults), key)
    {
      if key in getFaults {
        return ReadFailed(getFaults[key]);
      }
      if key in objects {
        return Found(objects[key]);
      }
      return NotFound;
    }

    method Create(obj: Unstructured) returns (err: Option<string>)
      modifies this
      ensures err == old(createFault)
      ensures objects == (if err.Some? then old(objects) else old(objects)[KeyOf(obj) := obj])
      ensures getFaults == old(getFaults) && createFault == old(createFault) && updateFault == old(updateFault)
    {
      if createFault.Some? {
        return createFault;
      }
      objects := objects[KeyOf(obj) := obj];
      return None;
    }

    method Update(obj: Unstructured) returns (err: Option<string>)
      modifies this
      ensures err == old(updateFault)
      ensures objects == (if err.Some? then old(objects) else old(objects)[KeyOf(obj) := obj])
      ensures getFaults == old(getFaults) && createFault == old(createFault) && updateFault == old(updateFault)
    {
      if updateFault.Some? {
        return updateFault;
      }
      objects := objects[KeyOf(obj) := obj];
      return None;
    }
  }

  /** CreateOrUpdate. sent is desired as it stands when the call returns: with
      the existing object's resourceVersion when one was found. */
  method CreateOrUpdate(c: ObjectStore, desired: Unstructured) returns (err: Option<string>, sent: Unstructured)
    modifies c
    ensures c.getFaults == old(c.getFaults) && c.createFault == old(c.createFault) && c.updateFault == old(c.updateFault)
    ensures desired.gvk.Empty() ==>
      err == Some("desired object must have GroupVersionKind set") && c.objects == old(c.objects) && sent == desired
    ensures !desired.gvk.Empty() && desired.name == "" ==>
      err == Some("desired object must have a name set") && c.objects == old(c.objects) && sent == desired
    ensures !desired.gvk.Empty() && desired.name != "" ==>
      var key := LookupKey(desired);
      var place := Where(desired.gvk, desired.name, key.namespace);
      match Kube.Get(Cluster(old(c.objects), old(c.getFaults)), key)
      case ReadFailed(e) =>
        err == Some("failed to get " + place + ": " + e) && c.objects == old(c.objects) && sent == desired
      case NotFound =>
        sent == desired
        && (old(c.createFault).Some? ==> err == Some("failed to create " + place + ": " + old(c.createFault).value) && c.objects == old(c.objects))
        && (old(c.createFault).None? ==> err.None? && c.objects == old(c.objects)[KeyOf(desired) := desired])
      case Found(existing) =>
        sent == desired.(resourceVersion := existing.resourceVersion)
        && (old(c.updateFault).Some? ==> err == Some("failed to update " + place + ": " + old(c.updateFault).value) && c.objects == old(c.objects))
        && (old(c.updateFault).None? ==> err.None? && c.objects == old(c.objects)[KeyOf(sent) := sent])
  {
    sent := desired;
    var gvk := desired.gvk;
    if gvk.Empty() {
      return Some("desired object must have GroupVersionKind set"), sent;
    }
    var namespace, name := desired.namespace, desired.name;
    if name == "" {
      return Some("desired object must have a name set"), sent;
    }
    if namespace == "" {
      namespace := NamespaceDefault;
    }
    var resource := c.Get(NamespacedName(namespace, desired.name));
    if resource.ReadFailed? {
      return Some("failed to get " + Where(gvk, name, namespace) + ": " + resource.err), sent;
    }
    if resource.NotFound? {
      var createErr := c.Create(desired);
      if createErr.Some? {
        return Some("failed to create " + Where(gvk, name, namespace) + ": " + createErr.value), sent;
      }
      return None, sent;
    }
    sent := sent.(resourceVersion := resource.obj.resourceVersion);
    var updateErr := c.Update(sent);
    if updateErr.Some? {
      return Some("failed to update " + Where(gvk, name, namespace) + ": " + updateErr.value), sent;
    }
    return None, sent;
  }
}
