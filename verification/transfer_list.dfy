/**
 * `getTransferList`: the order-sensitive heuristic that picks the values to
 * transfer (rather than copy) with a posted message. The same function is
 * used by every revision of the protocol.
 */
module TransferList {
  import opened JsValue

  const Marker := "$transferList"

  /** The (possibly mutated) argument list and the transfer list returned. */
  datatype Extraction = Extraction(args: seq<Value>, transfer: Value)

  /** `if (arg.$transferList)`. */
  predicate HasMarker(v: Value) {
    Truthy(Prop(v, Marker))
  }

  /** `delete arg.$transferList`. */
  function DeleteMarker(v: Value): (r: Value)
    ensures !HasMarker(r)
  {
    if v.Obj? then Obj(v.props - {Marker}) else v
  }

  /** Independent description of the ports the scan collects: every MessagePort, in order. */
  function Ports(args: seq<Value>): (r: seq<Value>)
    ensures forall x :: x in r ==> IsMessagePort(x) && x in args
  {
    if |args| == 0 then []
    else (if IsMessagePort(args[0]) then [args[0]] else []) + Ports(args[1..])
  }

  /** `k` is the first argument carrying a truthy `$transferList`. */
  predicate FirstMarkerAt(args: seq<Value>, k: int) {
    0 <= k < |args| && HasMarker(args[k]) && forall j :: 0 <= j < k ==> !HasMarker(args[j])
  }

  /**
   * The scanning loop from position `i` on, with the ports found so far.
   * null and undefined are skipped; the first marked argument wins and the
   * ports collected so far are dropped.
   */
  function Scan(args: seq<Value>, i: nat, found: seq<Value>): (r: Extraction)
    requires i <= |args|
    requires forall j :: 0 <= j < i ==> !HasMarker(args[j])
    ensures (exists k :: FirstMarkerAt(args, k)) ==>
      forall k :: FirstMarkerAt(args, k) ==>
        r == Extraction(args[k := DeleteMarker(args[k])], Prop(args[k], Marker))
    ensures (forall k :: 0 <= k < |args| ==> !HasMarker(args[k])) ==>
      r == Extraction(args, Arr(found + Ports(args[i..])))
    decreases |args| - i
  {
    if i == |args| then
      assert args[i..] == [] && found + Ports([]) == found;
      Extraction(args, Arr(found))
    else
      var a := args[i];
      if a.Undefined? || a.Null? then
        assert args[i..][1..] == args[i + 1..];
        assert Ports(args[i..]) == Ports(args[i + 1..]);
        Scan(args, i + 1, found)
      else
        var found' := if IsMessagePort(a) then found + [a] else found;
        if HasMarker(a) then
          assert FirstMarkerAt(args, i);
          Extraction(args[i := DeleteMarker(a)], Prop(a, Marker))
        else
          assert args[i..][1..] == args[i + 1..];
          assert found' + Ports(args[i + 1..]) == found + Ports(args[i..]);
          Scan(args, i + 1, found')
  }

  /** `getTransferList(args)`: the trailing-array branch, else the scan. */
  function GetTransferList(args: seq<Value>): (r: Extraction)
    ensures |args| == 0 ==> r == Extraction(args, Arr([]))
    ensures |args| > 0 && args[|args| - 1].Arr? ==>
      var last := args[|args| - 1];
      if |last.items| > 0 && IsTransferable(last.items[0])
      then r == Extraction(args[..|args| - 1], last)
      else r == Extraction(args, Arr([]))
    ensures |args| > 0 && !args[|args| - 1].Arr? && (forall k :: 0 <= k < |args| ==> !HasMarker(args[k])) ==>
      r == Extraction(args, Arr(Ports(args)))
    ensures |args| > 0 && !args[|args| - 1].Arr? ==>
      forall k :: FirstMarkerAt(args, k) ==>
        r == Extraction(args[k := DeleteMarker(args[k])], Prop(args[k], Marker))
  {
    if |args| == 0 then Extraction(args, Arr([]))
    else
      var candidate := args[|args| - 1];
      if candidate.Arr? then
        if |candidate.items| == 0 then Extraction(args, Arr([]))
        else if !IsTransferable(candidate.items[0]) then Extraction(args, Arr([]))
        else Extraction(args[..|args| - 1], candidate)
      else
        assert args[0..] == args && [] + Ports(args) == Ports(args);
        Scan(args, 0, [])
  }

  /**
   * What `getTransferList` may do to the argument list: nothing, pop a
   * trailing array, or delete the marker from one marked argument.
   */
  predicate OnlyTransferRemoved(args: seq<Value>, out: seq<Value>) {
    || out == args
    || (|args| > 0 && args[|args| - 1].Arr? && out == args[..|args| - 1])
    || (exists k :: 0 <= k < |args| && HasMarker(args[k]) && out == args[k := DeleteMarker(args[k])])
  }

  /** Some argument is marked, so a first marked one exists. */
  lemma {:induction false} FirstMarkerExists(args: seq<Value>, k: int)
    requires 0 <= k < |args| && HasMarker(args[k])
    ensures exists j :: FirstMarkerAt(args, j)
    decreases k
  {
    if !FirstMarkerAt(args, k) {
      var j :| 0 <= j < k && HasMarker(args[j]);
      FirstMarkerExists(args, j);
    }
  }

  /** Whatever the arguments, `getTransferList` changes them at most as `OnlyTransferRemoved` allows. */
  lemma ArgsOnlyLoseTransfer(args: seq<Value>)
    ensures OnlyTransferRemoved(args, GetTransferList(args).args)
  {
    if |args| > 0 && !args[|args| - 1].Arr? && exists k :: 0 <= k < |args| && HasMarker(args[k]) {
      var k :| 0 <= k < |args| && HasMarker(args[k]);
      FirstMarkerExists(args, k);
      var j :| FirstMarkerAt(args, j);
      assert GetTransferList(args).args == args[j := DeleteMarker(args[j])];
    }
  }

  /**
   * Only the first element of a trailing array is inspected: whatever follows
   * it, the whole array is popped and returned as the transfer list.
   */
  lemma TrailingArrayDecidedByFirst(front: seq<Value>, first: Value, rest: seq<Value>)
    requires IsTransferable(first)
    ensures GetTransferList(front + [Arr([first] + rest)]) == Extraction(front, Arr([first] + rest))
  {
    var args := front + [Arr([first] + rest)];
    assert args[..|args| - 1] == front;
  }

  /** Hence a non-transferable value can end up in the transfer list. */
  lemma NonTransferableMayBeListed()
    ensures var r := GetTransferList([Str("a"), Arr([Resource(ArrayBuffer, 0), Num(1)])]);
      r.transfer == Arr([Resource(ArrayBuffer, 0), Num(1)]) && !IsTransferable(Num(1))
  {
    TrailingArrayDecidedByFirst([Str("a")], Resource(ArrayBuffer, 0), [Num(1)]);
  }

  /** The scan returns the marker list even when ports were seen before it. */
  lemma MarkerDropsEarlierPorts(port: Value, list: Value)
    requires IsMessagePort(port) && Truthy(list)
    ensures var marked := Obj(map[Marker := list]);
      GetTransferList([port, marked]) == Extraction([port, Obj(map[])], list)
  {
    var marked := Obj(map[Marker := list]);
    var args := [port, marked];
    assert FirstMarkerAt(args, 1);
    assert map[Marker := list] - {Marker} == map[];
  }
}
