/**
 * The request dispatcher of the service's entry point: a registry maps a path
 * prefix to the handlers of that prefix, keyed by HTTP method; a request goes
 * to the first registered prefix its path starts with.
 */
module Router {
  import opened GoStrings

  /** A registry entry's handlers are named by the methods they serve. */
  type Registry = map<string, set<string>>

  datatype Outcome =
    | Handle(prefix: string, verb: string)
    | Reply(status: int, body: string)

  const MethodNotAllowed := Reply(405, "Method Not Allowed")
  const NotFound := Reply(404, "Not Found")

  /** The one registry the service installs: the virtual machine handlers. */
  const VmsMethods: set<string> := {"POST", "GET", "DELETE"}
  const ServiceRegistry: Registry := map["/vms" := VmsMethods]

  /** `order` enumerates the registry's prefixes, each exactly once (Go's map iteration order). */
  ghost predicate Enumerates(registry: Registry, order: seq<string>)
  {
    (forall i, j :: 0 <= i < j < |order| ==> order[i] != order[j])
    && (forall p :: p in order <==> p in registry)
  }

  /** The dispatch closure: the first prefix of the iteration that the path starts with decides. */
  function Dispatch(registry: Registry, order: seq<string>, path: string, verb: string): (o: Outcome)
    requires forall p :: p in order ==> p in registry
    decreases |order|
  {
    if |order| == 0 then NotFound
    else if HasPrefix(path, order[0]) then
      if verb in registry[order[0]] then Handle(order[0], verb) else MethodNotAllowed
    else Dispatch(registry, order[1..], path, verb)
  }

  /** The index of the prefix that decides a request: the first one in the iteration the path starts with. */
  predicate FirstMatch(order: seq<string>, path: string, i: int)
  {
    0 <= i < |order| && HasPrefix(path, order[i])
    && forall j :: 0 <= j < i ==> !HasPrefix(path, order[j])
  }

  /** Dispatch, characterised by the first matching prefix: handler, 405 or 404. */
  lemma {:induction false} DispatchByFirstMatch(registry: Registry, order: seq<string>, path: string, verb: string)
    requires forall p :: p in order ==> p in registry
    ensures forall i :: FirstMatch(order, path, i) ==>
              Dispatch(registry, order, path, verb)
                == (if verb in registry[order[i]] then Handle(order[i], verb) else MethodNotAllowed)
    ensures (forall j :: 0 <= j < |order| ==> !HasPrefix(path, order[j])) ==>
              Dispatch(registry, order, path, verb) == NotFound
    decreases |order|
  {
    if |order| > 0 && !HasPrefix(path, order[0]) {
      DispatchByFirstMatch(registry, order[1..], path, verb);
      forall i | FirstMatch(order, path, i)
        ensures Dispatch(registry, order, path, verb)
                  == (if verb in registry[order[i]] then Handle(order[i], verb) else MethodNotAllowed)
      {
        assert FirstMatch(order[1..], path, i - 1);
      }
      if forall j :: 0 <= j < |order| ==> !HasPrefix(path, order[j]) {
        forall j | 0 <= j < |order[1..]|
          ensures !HasPrefix(path, order[1..][j])
        {
          assert order[1..][j] == order[j + 1];
        }
      }
    } else if |order| > 0 {
      forall i | FirstMatch(order, path, i)
        ensures i == 0
      {
      }
    }
  }

  /** The handler is called only with a registered prefix of the path and a verb registered for it. */
  lemma {:induction false} HandledOnlyIfRegistered(registry: Registry, order: seq<string>, path: string, verb: string)
    requires forall p :: p in order ==> p in registry
    ensures var o := Dispatch(registry, order, path, verb);
            o.Handle? ==> o.prefix in registry && HasPrefix(path, o.prefix) && verb in registry[o.prefix]
                          && o.verb == verb
    ensures Dispatch(registry, order, path, verb).Reply? ==>
              Dispatch(registry, order, path, verb) in {MethodNotAllowed, NotFound}
    decreases |order|
  {
    if |order| > 0 && !HasPrefix(path, order[0]) {
      HandledOnlyIfRegistered(registry, order[1..], path, verb);
    }
  }

  /** When at most one registered prefix begins the path, every iteration order dispatches alike. */
  lemma OrderIrrelevant(registry: Registry, order1: seq<string>, order2: seq<string>, path: string, verb: string)
    requires Enumerates(registry, order1) && Enumerates(registry, order2)
    requires forall p, q :: p in registry && q in registry && HasPrefix(path, p) && HasPrefix(path, q) ==> p == q
    ensures Dispatch(registry, order1, path, verb) == Dispatch(registry, order2, path, verb)
  {
    if exists p :: p in registry && HasPrefix(path, p) {
      var p :| p in registry && HasPrefix(path, p);
      var i := IndexOf(order1, p);
      var j := IndexOf(order2, p);
      assert FirstMatch(order1, path, i);
      assert FirstMatch(order2, path, j);
      DispatchByFirstMatch(registry, order1, path, verb);
      DispatchByFirstMatch(registry, order2, path, verb);
    } else {
      DispatchByFirstMatch(registry, order1, path, verb);
      DispatchByFirstMatch(registry, order2, path, verb);
      assert forall j :: 0 <= j < |order1| ==> !HasPrefix(path, order1[j]) by {
        forall j | 0 <= j < |order1| ensures !HasPrefix(path, order1[j]) {
          assert order1[j] in registry;
        }
      }
      assert forall j :: 0 <= j < |order2| ==> !HasPrefix(path, order2[j]) by {
        forall j | 0 <= j < |order2| ensures !HasPrefix(path, order2[j]) {
          assert order2[j] in registry;
        }
      }
    }
  }

  /** The position of an element of a sequence. */
  lemma IndexOf(s: seq<string>, x: string) returns (i: nat)
    requires x in s
    ensures i < |s| && s[i] == x
  {
    i :| 0 <= i < |s| && s[i] == x;
  }

  /** A sequence without repeats, drawn from a set, is no longer than the set. */
  lemma {:induction false} DistinctWithin(order: seq<string>, keys: set<string>)
    requires forall i, j :: 0 <= i < j < |order| ==> order[i] != order[j]
    requires forall k :: 0 <= k < |order| ==> order[k] in keys
    ensures |order| <= |keys|
  {
    if |order| > 0 {
      forall k | 0 <= k < |order[1..]|
        ensures order[1..][k] in keys - {order[0]}
      {
        assert order[1..][k] == order[k + 1];
      }
      DistinctWithin(order[1..], keys - {order[0]});
    }
  }

  /** The service's registry has the one iteration order `["/vms"]`. */
  lemma ServiceOrder(order: seq<string>)
    requires Enumerates(ServiceRegistry, order)
    ensures order == ["/vms"]
  {
    assert "/vms" in order;
    DistinctWithin(order, ServiceRegistry.Keys);
    assert order[0] == "/vms";
  }

  /** The service's dispatch: paths starting with `/vms` reach the POST, GET or DELETE handler, or get 405; all other paths get 404. */
  lemma ServiceDispatch(order: seq<string>, path: string, verb: string)
    requires Enumerates(ServiceRegistry, order)
    ensures HasPrefix(path, "/vms") && verb in VmsMethods ==>
              Dispatch(ServiceRegistry, order, path, verb) == Handle("/vms", verb)
    ensures HasPrefix(path, "/vms") && verb !in VmsMethods ==>
              Dispatch(ServiceRegistry, order, path, verb) == MethodNotAllowed
    ensures !HasPrefix(path, "/vms") ==> Dispatch(ServiceRegistry, order, path, verb) == NotFound
  {
    ServiceOrder(order);
  }

  /** Matching is by string prefix, so a path that merely starts with the prefix's letters is routed too. */
  lemma PrefixIsTextual()
    ensures Dispatch(ServiceRegistry, ["/vms"], "/vmsXYZ", "GET") == Handle("/vms", "GET")
    ensures Dispatch(ServiceRegistry, ["/vms"], "/vms/abc", "PUT") == MethodNotAllowed
    ensures Dispatch(ServiceRegistry, ["/vms"], "/vm", "GET") == NotFound
  {
    assert HasPrefix("/vmsXYZ", "/vms") by { assert "/vmsXYZ"[..4] == "/vms"; }
    assert HasPrefix("/vms/abc", "/vms") by { assert "/vms/abc"[..4] == "/vms"; }
  }
}
