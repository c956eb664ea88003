/** When a pod counts as ready for traffic: an early-exit scan over its conditions, and what it means. */
module Readiness {
  import opened Basics
  import opened Adapter

  datatype Kind = PodReady | ServiceReady | OtherKind(name: string)

  datatype Condition = Condition(kind: Kind, isTrue: bool)

  /** A pod as an adapter lists it; ipv6 is its first IPv6 address. */
  datatype PodView = PodView(name: string, ip: string, ipv6: string, deleting: bool, conditions: seq<Condition>)

  /** The scan from a given state of its flags. */
  function Scan(conditions: seq<Condition>, podReady: bool, podReadyChecked: bool, gateChecked: bool): bool {
    if conditions == [] || (podReadyChecked && gateChecked) then podReady
    else
      var condition, rest := conditions[0], conditions[1..];
      match condition.kind
      case PodReady => if condition.isTrue then Scan(rest, true, true, gateChecked) else podReady
      case ServiceReady => if condition.isTrue then Scan(rest, podReady, podReadyChecked, true) else false
      case OtherKind(_) => Scan(rest, podReady, podReadyChecked, gateChecked)
  }

  function LifecycleReady(pod: PodView): bool {
    !pod.deleting && Scan(pod.conditions, false, false, false)
  }

  /** isPodLifecycleReady */
  method IsPodLifecycleReady(pod: PodView) returns (ready: bool)
    ensures ready == LifecycleReady(pod)
  {
    if pod.deleting {
      return false;
    }
    var podReady, readinessGateReady := false, true;
    var podReadyChecked, readinessGateReadyChecked := false, false;
    for i := 0 to |pod.conditions|
      invariant readinessGateReady
      invariant Scan(pod.conditions, false, false, false)
             == Scan(pod.conditions[i..], podReady, podReadyChecked, readinessGateReadyChecked)
    {
      var condition := pod.conditions[i];
      assert pod.conditions[i..][1..] == pod.conditions[i + 1..];
      if podReadyChecked && readinessGateReadyChecked {
        break;
      }
      if condition.kind.PodReady? {
        podReadyChecked := true;
        if condition.isTrue {
          podReady := true;
          continue;
        }
        break;
      }
      if condition.kind.ServiceReady? {
        readinessGateReadyChecked := true;
        if !condition.isTrue {
          readinessGateReady := false;
          break;
        }
      }
    }
    ready := podReady && readinessGateReady;
  }

  ghost predicate UniqueKinds(conditions: seq<Condition>) {
    forall i, j :: 0 <= i < j < |conditions| ==> conditions[i].kind != conditions[j].kind
  }

  /** PodReady is present and true; the service-ready gate is absent or true. */
  ghost predicate Means(conditions: seq<Condition>) {
    && Condition(PodReady, true) in conditions
    && Condition(ServiceReady, false) !in conditions
  }

  lemma {:induction false} ScanMeans(conditions: seq<Condition>, podReady: bool, gateChecked: bool)
    requires UniqueKinds(conditions)
    requires podReady ==> forall i :: 0 <= i < |conditions| ==> conditions[i].kind != PodReady
    requires gateChecked ==> forall i :: 0 <= i < |conditions| ==> conditions[i].kind != ServiceReady
    ensures Scan(conditions, podReady, podReady, gateChecked) <==>
      (podReady || Condition(PodReady, true) in conditions) && Condition(ServiceReady, false) !in conditions
  {
    if conditions != [] && !(podReady && gateChecked) {
      var head, rest := conditions[0], conditions[1..];
      assert conditions == [head] + rest;
      if head.kind.PodReady? && !head.isTrue {
        assert Condition(PodReady, true) !in conditions;
      } else if !(head.kind.ServiceReady? && !head.isTrue) {
        ScanMeans(rest, podReady || head.kind.PodReady?, gateChecked || head.kind.ServiceReady?);
      }
    }
  }

  /** On every list with unique condition types the scan has its order-free meaning. */
  lemma ReadyMeans(pod: PodView)
    requires UniqueKinds(pod.conditions)
    ensures LifecycleReady(pod) <==> !pod.deleting && Means(pod.conditions)
  {
    ScanMeans(pod.conditions, false, false);
  }

  /** ... and so does not depend on the order of the conditions. */
  lemma ReadyPermutes(pod: PodView, conditions: seq<Condition>)
    requires UniqueKinds(pod.conditions) && multiset(pod.conditions) == multiset(conditions)
    ensures UniqueKinds(conditions)
    ensures LifecycleReady(pod.(conditions := conditions)) == LifecycleReady(pod)
  {
    forall i, j | 0 <= i < j < |conditions| ensures conditions[i].kind != conditions[j].kind {
      assert conditions[i] in multiset(pod.conditions) && conditions[j] in multiset(pod.conditions);
      var a :| 0 <= a < |pod.conditions| && pod.conditions[a] == conditions[i];
      var b :| 0 <= b < |pod.conditions| && pod.conditions[b] == conditions[j];
      if a == b {
        TwiceCounted(conditions, i, j);
        OnceInUnique(pod.conditions, conditions[i]);
      }
    }
    assert forall c :: c in pod.conditions <==> c in multiset(pod.conditions);
    assert forall c :: c in conditions <==> c in multiset(conditions);
    ReadyMeans(pod);
    ReadyMeans(pod.(conditions := conditions));
  }

  lemma {:induction false} OnceInUnique(conditions: seq<Condition>, c: Condition)
    requires UniqueKinds(conditions)
    ensures multiset(conditions)[c] <= 1
  {
    if conditions != [] {
      OnceInUnique(conditions[1..], c);
      assert conditions == [conditions[0]] + conditions[1..];
      if conditions[0] == c {
        assert c !in conditions[1..];
      }
    }
  }

  /** GetCommonPodEmployeeStatus */
  function CommonStatus(pod: PodView, extra: Extra): Status {
    PodStatus(pod.ip, pod.ipv6, LifecycleReady(pod), extra)
  }
}
