/** The view over a parameter node of the XSLT intermediate language. */
module Qil {
  import opened Results

  /**
   * The child list after assigning value at index: an index inside the list
   * replaces that one child, any other index leaves the list as it was.
   */
  function Assign<T>(children: seq<T>, index: int, value: T): (r: seq<T>)
    ensures |r| == |children|
    ensures forall k | 0 <= k < |children| :: r[k] == if k == index then value else children[k]
  {
    if 0 <= index < |children| then children[index := value] else children
  }

  /**
   * The child list after a series of indexer assignments, each an (index, value)
   * pair, made in order; an assignment that throws is caught and leaves the list alone.
   * Since each QilParameter.SetItem call leaves Children() == Assign(old(Children()), ...),
   * AssignAllExtend shows that the children after any series of SetItem calls are
   * AssignAll of the children before them and the writes made.
   */
  function AssignAll<T>(children: seq<T>, writes: seq<(int, T)>): seq<T>
    decreases |writes|
  {
    if writes == [] then children
    else AssignAll(Assign(children, writes[0].0, writes[0].1), writes[1..])
  }

  /** The value last written at index k by the writes, or current if none of them is at k. */
  function LastWritten<T>(writes: seq<(int, T)>, k: int, current: T): T
    decreases |writes|
  {
    if writes == [] then current
    else LastWritten(writes[1..], k, if writes[0].0 == k then writes[0].1 else current)
  }

  /** One more assignment after a series of them extends the series by that write. */
  lemma {:induction false} AssignAllExtend<T>(children: seq<T>, writes: seq<(int, T)>, index: int, value: T)
    ensures AssignAll(children, writes + [(index, value)]) == Assign(AssignAll(children, writes), index, value)
    decreases |writes|
  {
    if writes == [] {
      assert [(index, value)][1..] == [];
    } else {
      assert (writes + [(index, value)])[1..] == writes[1..] + [(index, value)];
      AssignAllExtend(Assign(children, writes[0].0, writes[0].1), writes[1..], index, value);
    }
  }

  /** After any series of assignments, each child holds the value last written at its index. */
  lemma {:induction false} AssignAllAt<T>(children: seq<T>, writes: seq<(int, T)>, k: int)
    requires 0 <= k < |children|
    ensures |AssignAll(children, writes)| == |children|
    ensures AssignAll(children, writes)[k] == LastWritten(writes, k, children[k])
    decreases |writes|
  {
    if writes != [] {
      AssignAllAt(Assign(children, writes[0].0, writes[0].1), writes[1..], k);
    }
  }

  /** Assignments whose indexes all lie outside the list never change it. */
  lemma {:induction false} AssignAllOutside<T>(children: seq<T>, writes: seq<(int, T)>)
    requires forall j | 0 <= j < |writes| :: !(0 <= writes[j].0 < |children|)
    ensures AssignAll(children, writes) == children
    decreases |writes|
  {
    if writes != [] {
      assert Assign(children, writes[0].0, writes[0].1) == children;
      AssignAllOutside(children, writes[1..]);
    }
  }

  /**
   * A parameter node: slot 0 holds its binding (the default value) and slot 1
   * its name; either may be null. The node type and the XML type are carried
   * along untouched by everything here.
   */
  class QilParameter<Node, NodeType, XmlType> {
    var nodeType: NodeType
    var binding: Option<Node>
    var name: Option<Node>
    var xmlType: XmlType

    /** The node's children in slot order. */
    function Children(): seq<Option<Node>>
      reads this
    {
      [binding, name]
    }

    constructor (nodeType: NodeType, defaultValue: Option<Node>, name: Option<Node>, xmlType: XmlType)
      ensures this.nodeType == nodeType && this.xmlType == xmlType
      ensures binding == defaultValue && this.name == name
      ensures Children() == [defaultValue, name]
    {
      this.nodeType := nodeType;
      binding := defaultValue;
      this.name := name;
      this.xmlType := xmlType;
    }

    /** Reads the child at index; an index other than 0 or 1 throws. */
    function GetItem(index: int): (r: Result<Option<Node>>)
      reads this
      ensures r.Ok? <==> 0 <= index < |Children()|
      ensures r.Ok? ==> r.value == Children()[index]
      ensures r.Err? ==> r.error == IndexOutOfRange
    {
      match index
      case 0 => Ok(binding)
      case 1 => Ok(name)
      case _ => Err(IndexOutOfRange)
    }

    /** The number of children: exactly the indexes below it are readable. */
    function Count(): (c: int)
      reads this
      ensures c == |Children()|
      ensures forall i :: GetItem(i).Ok? <==> 0 <= i < c
    {
      2
    }

    /** Writes the child at index; an index other than 0 or 1 throws and changes nothing. */
    method SetItem(index: int, value: Node) returns (r: Result<()>)
      modifies this
      ensures r.Ok? <==> 0 <= index < Count()
      ensures r.Err? ==> r.error == IndexOutOfRange
      ensures Children() == Assign(old(Children()), index, Some(value))
      ensures binding == (if index == 0 then Some(value) else old(binding))
      ensures name == (if index == 1 then Some(value) else old(name))
      ensures r.Ok? ==> GetItem(index) == Ok(Some(value))
      ensures nodeType == old(nodeType) && xmlType == old(xmlType)
    {
      match index
      case 0 => binding := Some(value); r := Ok(());
      case 1 => name := Some(value); r := Ok(());
      case _ => r := Err(IndexOutOfRange);
    }

    /**
     * Two indexer writes in a row leave the children that the pair of writes
     * gives, applied in order: successive SetItem calls compose as AssignAll.
     */
    method SetItemTwice(i: int, u: Node, j: int, v: Node)
      modifies this
      ensures Children() == AssignAll(old(Children()), [(i, Some(u)), (j, Some(v))])
    {
      ghost var before := Children();
      var _ := SetItem(i, u);
      AssignAllExtend(before, [], i, Some(u));
      var _ := SetItem(j, v);
      AssignAllExtend(before, [(i, Some(u))], j, Some(v));
      assert [(i, Some(u))] + [(j, Some(v))] == [(i, Some(u)), (j, Some(v))];
    }

    /** The default value, which is the child in slot 0. */
    function DefaultValue(): (v: Option<Node>)
      reads this
      ensures GetItem(0) == Ok(v)
    {
      binding
    }

    /** Replaces the default value, which is writing slot 0. */
    method SetDefaultValue(value: Option<Node>)
      modifies this
      ensures Children() == Assign(old(Children()), 0, value)
      ensures binding == value && name == old(name)
      ensures DefaultValue() == value && GetItem(1) == old(GetItem(1))
      ensures nodeType == old(nodeType) && xmlType == old(xmlType)
    {
      binding := value;
    }

    /** The name, which is the child in slot 1. */
    function Name(): (v: Option<Node>)
      reads this
      ensures GetItem(1) == Ok(v)
    {
      name
    }

    /** Replaces the name, which is writing slot 1. */
    method SetName(value: Option<Node>)
      modifies this
      ensures Children() == Assign(old(Children()), 1, value)
      ensures name == value && binding == old(binding)
      ensures Name() == value && GetItem(0) == old(GetItem(0))
      ensures nodeType == old(nodeType) && xmlType == old(xmlType)
    {
      name := value;
    }
  }
}
