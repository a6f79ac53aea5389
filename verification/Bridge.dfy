/** Checking what crosses the frame boundary: JSON values in object graphs that may share and cycle,
    and duplicate messages (integrations/comfyui-videoops/web/bridge-contract.js). */
module Bridge {

  /** A value: a primitive, or a reference to an object by its address. */
  datatype Value = Null | Text | Boolean | Number(finite: bool) | OtherType | Ref(address: nat)

  /** An array or an object with the values it holds; `plain` tells whether its prototype is allowed. */
  datatype Object = Object(isArray: bool, plain: bool, items: seq<Value>)

  type Heap = seq<Object>

  predicate Points(heap: Heap, v: Value) { v.Ref? ==> v.address < |heap| }

  predicate Closed(heap: Heap) {
    forall a, n :: 0 <= a < |heap| && 0 <= n < |heap[a].items| ==> Points(heap, heap[a].items[n])
  }

  predicate JsonPrimitive(v: Value) {
    v.Null? || v.Text? || v.Boolean? || (v.Number? && v.finite)
  }

  // ------------------------------------------------------------------------- specification

  /** A way through the graph along references. */
  predicate Path(heap: Heap, p: seq<nat>) {
    && p != [] && (forall i :: 0 <= i < |p| ==> p[i] < |heap|)
    && (forall i :: 0 <= i < |p| - 1 ==> Ref(p[i + 1]) in heap[p[i]].items)
  }

  /** The object itself is allowed in JSON, and so is every primitive it holds. */
  predicate JsonHere(o: Object) {
    (o.isArray || o.plain) && forall n :: 0 <= n < |o.items| ==> o.items[n].Ref? || JsonPrimitive(o.items[n])
  }

  predicate NoRepeat(p: seq<nat>) {
    forall i, j :: 0 <= i < j < |p| ==> p[i] != p[j]
  }

  /** A path meets none of the ancestors and no object twice, and ends in JSON. */
  predicate Fine(heap: Heap, p: seq<nat>, ancestors: set<nat>)
    requires Path(heap, p)
  {
    && (forall i :: 0 <= i < |p| ==> p[i] !in ancestors)
    && NoRepeat(p) && JsonHere(heap[p[|p| - 1]])
  }

  /** Every path from the value is fine. */
  ghost predicate Accepted(heap: Heap, v: Value, ancestors: set<nat>) {
    if v.Ref? then forall p :: Path(heap, p) && p[0] == v.address ==> Fine(heap, p, ancestors) else JsonPrimitive(v)
  }

  /** No cycle can be reached from the value. */
  ghost predicate Acyclic(heap: Heap, v: Value) {
    v.Ref? ==> forall p :: Path(heap, p) && p[0] == v.address ==> NoRepeat(p)
  }

  /** Every value that can be reached is a JSON value. */
  ghost predicate AllJson(heap: Heap, v: Value) {
    if v.Ref? then forall p :: Path(heap, p) && p[0] == v.address ==> JsonHere(heap[p[|p| - 1]]) else JsonPrimitive(v)
  }

  lemma AcceptedExactly(heap: Heap, v: Value)
    ensures Accepted(heap, v, {}) <==> Acyclic(heap, v) && AllJson(heap, v)
  {
    if v.Ref? {
      if Acyclic(heap, v) && AllJson(heap, v) {
        forall p | Path(heap, p) && p[0] == v.address ensures Fine(heap, p, {}) {
        }
      }
      if Accepted(heap, v, {}) {
        forall p | Path(heap, p) && p[0] == v.address ensures NoRepeat(p) && JsonHere(heap[p[|p| - 1]]) {
          assert Fine(heap, p, {});
        }
      }
    }
  }

  lemma PathTail(heap: Heap, p: seq<nat>)
    requires Path(heap, p) && |p| > 1
    ensures Path(heap, p[1..]) && Ref(p[1]) in heap[p[0]].items
  {
    assert Ref(p[0 + 1]) in heap[p[0]].items;
    forall i | 0 <= i < |p[1..]| - 1 ensures Ref(p[1..][i + 1]) in heap[p[1..][i]].items {
      assert Ref(p[(i + 1) + 1]) in heap[p[i + 1]].items;
    }
  }

  lemma PathExtends(heap: Heap, a: nat, p: seq<nat>)
    requires a < |heap| && Path(heap, p) && Ref(p[0]) in heap[a].items
    ensures Path(heap, [a] + p)
  {
    var q := [a] + p;
    forall i | 0 <= i < |q| - 1 ensures Ref(q[i + 1]) in heap[q[i]].items {
      if i > 0 { assert Ref(p[(i - 1) + 1]) in heap[p[i - 1]].items; }
    }
  }

  /** The first `n` values an object holds are accepted below it. */
  ghost predicate ItemsAccepted(heap: Heap, a: nat, n: nat, ancestors: set<nat>)
    requires a < |heap| && n <= |heap[a].items|
  {
    forall k :: 0 <= k < n ==> Accepted(heap, heap[a].items[k], ancestors + {a})
  }

  lemma DescendAccepted(heap: Heap, a: nat, ancestors: set<nat>, k: nat)
    requires a < |heap| && Accepted(heap, Ref(a), ancestors) && k < |heap[a].items|
    ensures Accepted(heap, heap[a].items[k], ancestors + {a})
  {
    var v := heap[a].items[k];
    assert Path(heap, [a]);
    assert Fine(heap, [a], ancestors);
    if v.Ref? {
      forall p | Path(heap, p) && p[0] == v.address ensures Fine(heap, p, ancestors + {a}) {
        PathExtends(heap, a, p);
        var q := [a] + p;
        assert Fine(heap, q, ancestors);
        assert forall i :: 0 <= i < |p| ==> p[i] == q[i + 1];
        assert q[0] == a && q[|q| - 1] == p[|p| - 1];
      }
    }
  }

  lemma AscendAccepted(heap: Heap, a: nat, ancestors: set<nat>)
    requires a < |heap| && a !in ancestors && (heap[a].isArray || heap[a].plain)
    requires ItemsAccepted(heap, a, |heap[a].items|, ancestors)
    ensures Accepted(heap, Ref(a), ancestors)
  {
    forall p | Path(heap, p) && p[0] == a ensures Fine(heap, p, ancestors) {
      if |p| > 1 {
        PathTail(heap, p);
        var k :| 0 <= k < |heap[a].items| && heap[a].items[k] == Ref(p[1]);
        assert Accepted(heap, heap[a].items[k], ancestors + {a});
        assert Fine(heap, p[1..], ancestors + {a});
        assert forall i :: 0 < i < |p| ==> p[i] == p[1..][i - 1];
        assert p[|p| - 1] == p[1..][|p[1..]| - 1];
      }
    }
  }

  /** An object is accepted exactly when it is new, allowed, and all it holds is accepted below it. */
  lemma AcceptedUnfolds(heap: Heap, a: nat, ancestors: set<nat>)
    requires a < |heap|
    ensures Accepted(heap, Ref(a), ancestors)
            <==> a !in ancestors && (heap[a].isArray || heap[a].plain)
                 && ItemsAccepted(heap, a, |heap[a].items|, ancestors)
  {
    if Accepted(heap, Ref(a), ancestors) {
      assert Path(heap, [a]);
      assert Fine(heap, [a], ancestors);
      assert [a][0] !in ancestors;
      forall k | 0 <= k < |heap[a].items| ensures Accepted(heap, heap[a].items[k], ancestors + {a}) {
        DescendAccepted(heap, a, ancestors, k);
      }
    } else if a !in ancestors && (heap[a].isArray || heap[a].plain)
      && ItemsAccepted(heap, a, |heap[a].items|, ancestors) {
      AscendAccepted(heap, a, ancestors);
    }
  }

  // ----------------------------------------------------------------------------- the check

  class Ancestors {
    var members: set<nat>

    constructor ()
      ensures members == {}
    {
      members := {};
    }
  }

  function Below(n: nat): (s: set<nat>)
    ensures forall a: nat :: a in s <==> a < n
  {
    if n == 0 then {} else Below(n - 1) + {n - 1}
  }

  function Addresses(heap: Heap): set<nat> { Below(|heap|) }

  /** Terminates on every graph, gives the shared set back as it found it, and accepts exactly the
      values from which every path is fine. */
  method IsJsonValue(heap: Heap, value: Value, ancestors: Ancestors) returns (valid: bool)
    requires Closed(heap) && Points(heap, value) && ancestors.members <= Addresses(heap)
    modifies ancestors
    ensures ancestors.members == old(ancestors.members)
    ensures valid <==> Accepted(heap, value, old(ancestors.members))
    decreases Addresses(heap) - ancestors.members
  {
    if !value.Ref? { return JsonPrimitive(value); }
    var a := value.address;
    AcceptedUnfolds(heap, a, ancestors.members);
    if a in ancestors.members { return false; }
    ghost var before := ancestors.members;
    ancestors.members := ancestors.members + {a};
    valid := true;
    if !heap[a].isArray && !heap[a].plain {
      valid := false;
    } else {
      var n := 0;
      while n < |heap[a].items| && valid
        invariant n <= |heap[a].items| && ancestors.members == before + {a}
        invariant if valid then ItemsAccepted(heap, a, n, before) else !ItemsAccepted(heap, a, |heap[a].items|, before)
      {
        var item := heap[a].items[n];
        valid := IsJsonValue(heap, item, ancestors);
        n := n + 1;
      }
    }
    ancestors.members := ancestors.members - {a};
    assert ancestors.members == before;
  }

  /** From an empty set: true exactly when no cycle is reachable and everything reachable is JSON. */
  method IsJson(heap: Heap, value: Value) returns (valid: bool)
    requires Closed(heap) && Points(heap, value)
    ensures valid <==> Acyclic(heap, value) && AllJson(heap, value)
  {
    var ancestors := new Ancestors();
    valid := IsJsonValue(heap, value, ancestors);
    AcceptedExactly(heap, value);
  }

  // ---------------------------------------------------------------------- duplicate messages

  /** The type and request identifier of a validated message. */
  type MessageKey = nat

  const WINDOW: nat := 512

  function Last(keys: seq<MessageKey>, n: nat): seq<MessageKey> {
    if |keys| <= n then keys else keys[|keys| - n..]
  }

  /** The keys a guard lets through, in order, when it refuses those among its last WINDOW. */
  function LetThrough(keys: seq<MessageKey>): seq<MessageKey> {
    if keys == [] then []
    else
      var before := LetThrough(keys[..|keys| - 1]);
      var key := keys[|keys| - 1];
      if key in Last(before, WINDOW) then before else before + [key]
  }

  class BridgeMessageGuard {
    // a set in insertion order
    var seen: seq<MessageKey>
    ghost var offered: seq<MessageKey>

    ghost predicate Valid()
      reads this
    {
      seen == Last(LetThrough(offered), WINDOW) && forall i, j :: 0 <= i < j < |seen| ==> seen[i] != seen[j]
    }

    constructor ()
      ensures Valid() && offered == []
    {
      seen, offered := [], [];
    }

    /** Refused exactly when the key is among the last 512 that were let through. */
    method Accept(key: MessageKey) returns (ok: bool)
      requires Valid()
      modifies this
      ensures Valid() && offered == old(offered) + [key]
      ensures ok <==> key !in Last(LetThrough(old(offered)), 512)
      ensures LetThrough(offered) == LetThrough(old(offered)) + (if ok then [key] else [])
    {
      offered := offered + [key];
      assert offered[..|offered| - 1] == old(offered);
      if key in seen { return false; }
      seen := seen + [key];
      if |seen| > WINDOW { seen := seen[1..]; }
      return true;
    }

    method Reset()
      modifies this
      ensures Valid() && offered == []
    {
      seen, offered := [], [];
    }
  }

  /** A message repeated with fewer than 512 others let through in between never gets through twice. */
  lemma {:induction false} NoRepeatWithinWindow(keys: seq<MessageKey>, i: nat, j: nat)
    requires i < j < |LetThrough(keys)| && j - i <= 512
    ensures LetThrough(keys)[i] != LetThrough(keys)[j]
    decreases |keys|
  {
    var before := LetThrough(keys[..|keys| - 1]);
    if j < |before| {
      NoRepeatWithinWindow(keys[..|keys| - 1], i, j);
    } else {
      var window := Last(before, WINDOW);
      assert window[i - (|before| - |window|)] == before[i];
    }
  }
}
