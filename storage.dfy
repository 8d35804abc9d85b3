/**
 * The on-device key-value store (`AsyncStorage`) that keeps the session, and
 * the sequences of awaited writes the screens run against it.
 */
module Storage {
  import opened Common

  const TokenKey := "userToken"
  const NameKey := "userName"
  const IdKey := "userId"
  const RoleKey := "userRole"

  type Items = map<string, string>

  /** `AsyncStorage.getItem(key)`: the stored value, or `null`. */
  function Lookup(items: Items, key: string): (v: Option<string>)
    ensures v.Some? <==> key in items
    ensures v.Some? ==> v.value == items[key]
  {
    if key in items then Some(items[key]) else None
  }

  /** One awaited storage call. */
  datatype StoreOp = SetItem(key: string, value: string) | RemoveItem(key: string)

  function ApplyOp(items: Items, op: StoreOp): (r: Items)
    ensures op.SetItem? ==> r == items[op.key := op.value]
    ensures op.RemoveItem? ==> r == items - {op.key}
  {
    match op
    case SetItem(k, v) => items[k := v]
    case RemoveItem(k) => items - {k}
  }

  /** Whether no call of a sequence of `n` calls fails, when call `failAt` (if any) throws. */
  predicate Completes(n: nat, failAt: Option<nat>)
  {
    failAt.None? || failAt.value >= n
  }

  /**
   * The store after the awaited calls `ops`, in order, where the call at
   * index `failAt` (if any) throws: the calls before it take effect, it and
   * the ones after it do not.
   */
  function RunOps(items: Items, ops: seq<StoreOp>, failAt: Option<nat>): (r: Items)
    ensures failAt == Some(0) ==> r == items
    ensures forall k :: k in r && k !in items ==> exists i :: 0 <= i < |ops| && ops[i].SetItem? && ops[i].key == k
    decreases |ops|
  {
    if ops == [] || failAt == Some(0) then items
    else
      var first := ApplyOp(items, ops[0]);
      var r := RunOps(first, ops[1..], if failAt.Some? then Some(failAt.value - 1) else None);
      assert forall k :: k in r && k !in items ==> exists i :: 0 <= i < |ops| && ops[i].SetItem? && ops[i].key == k by {
        forall k | k in r && k !in items
          ensures exists i :: 0 <= i < |ops| && ops[i].SetItem? && ops[i].key == k
        {
          if k in first {
            assert ops[0].SetItem? && ops[0].key == k;
          } else {
            var i :| 0 <= i < |ops[1..]| && ops[1..][i].SetItem? && ops[1..][i].key == k;
            assert ops[i + 1] == ops[1..][i];
          }
        }
      }
      r
  }

  /** A key that no call of `ops` names keeps its entry, whatever fails. */
  lemma {:induction false} RunOpsFrame(items: Items, ops: seq<StoreOp>, failAt: Option<nat>, k: string)
    requires forall i :: 0 <= i < |ops| ==> ops[i].key != k
    ensures Lookup(RunOps(items, ops, failAt), k) == Lookup(items, k)
    decreases |ops|
  {
    if ops != [] && failAt != Some(0) {
      var next := if failAt.Some? then Some(failAt.value - 1) else None;
      RunOpsFrame(ApplyOp(items, ops[0]), ops[1..], next, k);
    }
  }

  /** When every call succeeds, the last call naming a key decides its entry. */
  lemma {:induction false} RunOpsLastWrite(items: Items, ops: seq<StoreOp>, j: nat)
    requires j < |ops|
    requires forall i :: j < i < |ops| ==> ops[i].key != ops[j].key
    ensures var r := RunOps(items, ops, None);
      if ops[j].SetItem? then ops[j].key in r && r[ops[j].key] == ops[j].value
      else ops[j].key !in r
    decreases |ops|
  {
    if j == 0 {
      RunOpsFrame(ApplyOp(items, ops[0]), ops[1..], None, ops[0].key);
    } else {
      RunOpsLastWrite(ApplyOp(items, ops[0]), ops[1..], j - 1);
    }
  }

  /** A sequence of three calls, written out by where it stops. */
  lemma RunThreeOps(items: Items, a: StoreOp, b: StoreOp, c: StoreOp, failAt: Option<nat>)
    ensures RunOps(items, [a, b, c], failAt) ==
      if failAt == Some(0) then items
      else if failAt == Some(1) then ApplyOp(items, a)
      else if failAt == Some(2) then ApplyOp(ApplyOp(items, a), b)
      else ApplyOp(ApplyOp(ApplyOp(items, a), b), c)
  {
    assert [a, b, c][1..] == [b, c];
    assert [b, c][1..] == [c];
    assert [c][1..] == [];
    if failAt != Some(0) {
      var f1 := if failAt.Some? then Some(failAt.value - 1) else None;
      var m1 := ApplyOp(items, a);
      assert RunOps(items, [a, b, c], failAt) == RunOps(m1, [b, c], f1);
      if f1 != Some(0) {
        var f2 := if f1.Some? then Some(f1.value - 1) else None;
        var m2 := ApplyOp(m1, b);
        assert RunOps(m1, [b, c], f1) == RunOps(m2, [c], f2);
        if f2 != Some(0) {
          var f3 := if f2.Some? then Some(f2.value - 1) else None;
          assert RunOps(m2, [c], f2) == RunOps(ApplyOp(m2, c), [], f3);
        }
      }
    }
  }

  /** The device store. Each call may fail; a failing call changes nothing. */
  class Store {
    var items: Items

    constructor (initial: Items)
      ensures items == initial
    {
      items := initial;
    }

    method GetItem(key: string) returns (v: Option<string>)
      ensures v == Lookup(items, key)
    {
      v := if key in items then Some(items[key]) else None;
    }

    /** `AsyncStorage.setItem(key, value)`; `fails` says whether the call throws. */
    method SetItem(key: string, value: string, fails: bool) returns (ok: bool)
      modifies this
      ensures ok == !fails
      ensures items == if fails then old(items) else ApplyOp(old(items), StoreOp.SetItem(key, value))
    {
      ok := !fails;
      if ok {
        items := items[key := value];
      }
    }

    /** `AsyncStorage.removeItem(key)`; `fails` says whether the call throws. */
    method RemoveItem(key: string, fails: bool) returns (ok: bool)
      modifies this
      ensures ok == !fails
      ensures items == if fails then old(items) else ApplyOp(old(items), StoreOp.RemoveItem(key))
    {
      ok := !fails;
      if ok {
        items := items - {key};
      }
    }
  }
}
