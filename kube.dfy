// The parts of the Kubernetes and controller-runtime vocabulary the
// controllers use: object keys and references, conditions, the answer of a
// client read, and a reconcile result.
module Kube {
  import opened Wrappers

  const NanosPerSecond: int := 1_000_000_000

  /** types.NamespacedName, the key of a reconcile request. */
  datatype NamespacedName = NamespacedName(namespace: string, name: string)

  /** corev1.ObjectReference; an omitted namespace is the empty string. */
  datatype ObjectReference = ObjectReference(kind: string, apiVersion: string, name: string, namespace: string)

  /** metav1.Condition without its timestamps and generation. */
  datatype Condition = Condition(condType: string, status: string, reason: string, message: string)

  datatype ConfigMap = ConfigMap(name: string, namespace: string, data: map<string, string>)

  /** What a client Get answers: the object, a NotFound error, or any other error. */
  datatype Read<T> = Found(obj: T) | NotFound | ReadFailed(err: string)

  /** An abstract cluster for one kind of object: what it holds, and the keys
      whose reads fail with an error other than NotFound. */
  datatype Cluster<T> = Cluster(objects: map<NamespacedName, T>, faults: map<NamespacedName, string>)

  function Get<T>(s: Cluster<T>, key: NamespacedName): (r: Read<T>)
    ensures r.Found? <==> key !in s.faults && key in s.objects
    ensures r.Found? ==> r.obj == s.objects[key]
    ensures r.ReadFailed? ==> key in s.faults && r.err == s.faults[key]
  {
    if key in s.faults then ReadFailed(s.faults[key])
    else if key in s.objects then Found(s.objects[key])
    else NotFound
  }

  /** ctrl.Result together with the error Reconcile returns beside it;
      requeueAfter is in nanoseconds, 0 meaning none. */
  datatype Outcome = Outcome(requeue: bool, requeueAfter: int, err: Option<string>)

  /** ctrl.Result{} with a nil error. */
  const Done: Outcome := Outcome(false, 0, None)

  function Errored(err: string): Outcome
  {
    Outcome(false, 0, Some(err))
  }

  /** meta.FindStatusCondition(conds, t) != nil */
  predicate HasConditionType(conds: seq<Condition>, t: string)
  {
    exists i :: 0 <= i < |conds| && conds[i].condType == t
  }

  /** At most one condition per type (+listType=map, +listMapKey=type). */
  predicate UniqueConditionTypes(conds: seq<Condition>)
  {
    forall i, j :: 0 <= i < j < |conds| ==> conds[i].condType != conds[j].condType
  }
}
