/** The bounds every captured or ingested state tree meets, and the iterative walk that checks them. */
module StateTree {
  import opened Common
  import opened Text
  import opened Json

  const MAX_DEPTH := 64
  const MAX_NODES := 100_000

  ghost function Members(v: Value, keys: seq<string>): (members: seq<Value>)
    requires v.Object? && forall k :: k in keys ==> k in v.fields
    ensures forall i :: 0 <= i < |members| ==> members[i] < v
  {
    if keys == [] then [] else [v.fields[keys[0]]] + Members(v, keys[1..])
  }

  ghost function Children(v: Value): (children: seq<Value>)
    ensures forall i :: 0 <= i < |children| ==> children[i] < v
  {
    match v
    case Object(fields) => Members(v, SortedKeys(fields.Keys))
    case Array(items) => items
    case _ => []
  }

  ghost function Nodes(v: Value): nat
    decreases v, 1
  {
    1 + NodesOf(v, Children(v))
  }

  ghost function NodesOf(parent: Value, vs: seq<Value>): nat
    requires forall i :: 0 <= i < |vs| ==> vs[i] < parent
    decreases parent, 0, |vs|
  {
    if vs == [] then 0 else Nodes(vs[0]) + NodesOf(parent, vs[1..])
  }

  /** An integer literal of 64 bits, signed or unsigned. */
  predicate Integer64(text: string) {
    var negative := text != "" && text[0] == '-';
    var digits := if negative then text[1..] else text;
    digits != "" && (forall c :: c in digits ==> IsDigit(c)) &&
    DecimalValue(digits) <= if negative then 0x8000_0000_0000_0000 else 0xffff_ffff_ffff_ffff
  }

  predicate ValidNumber(text: string, float: Option<real>) {
    Integer64(text) || (float.Some? && exists c :: c in text && (c == '.' || c == 'e' || c == 'E'))
  }

  /** Every node sits within the depth limit and every number is a supported one. */
  ghost predicate Supported(v: Value, depth: nat)
    decreases v
  {
    NodeSupported(v, depth) &&
    var children := Children(v);
    forall i :: 0 <= i < |children| ==> Supported(children[i], depth + 1)
  }

  datatype Visit = Visit(value: Value, depth: nat)

  ghost function Remaining(stack: seq<Visit>): nat {
    if stack == [] then 0 else Nodes(stack[|stack| - 1].value) + Remaining(stack[..|stack| - 1])
  }

  ghost predicate AllSupported(stack: seq<Visit>) {
    stack == [] ||
    (Supported(stack[|stack| - 1].value, stack[|stack| - 1].depth) && AllSupported(stack[..|stack| - 1]))
  }

  function Push(stack: seq<Visit>, vs: seq<Value>, depth: nat): seq<Visit>
    decreases |vs|
  {
    if vs == [] then stack else Push(stack + [Visit(vs[0], depth)], vs[1..], depth)
  }

  lemma RemainingPush(stack: seq<Visit>, parent: Value, vs: seq<Value>, depth: nat)
    requires forall i :: 0 <= i < |vs| ==> vs[i] < parent
    ensures Remaining(Push(stack, vs, depth)) == Remaining(stack) + NodesOf(parent, vs)
    decreases |vs|
  {
    if vs == [] {
    } else {
      var first := stack + [Visit(vs[0], depth)];
      assert first[..|stack|] == stack;
      RemainingPush(first, parent, vs[1..], depth);
    }
  }

  lemma SupportedPush(stack: seq<Visit>, vs: seq<Value>, depth: nat)
    ensures AllSupported(Push(stack, vs, depth))
       <==> AllSupported(stack) && forall i :: 0 <= i < |vs| ==> Supported(vs[i], depth)
    decreases |vs|
  {
    if vs == [] {
    } else {
      var first := stack + [Visit(vs[0], depth)];
      assert first[..|stack|] == stack;
      SupportedPush(first, vs[1..], depth);
      assert vs == [vs[0]] + vs[1..];
    }
  }

  method CollectMembers(v: Value, keys: seq<string>) returns (members: seq<Value>)
    requires v.Object? && forall k :: k in keys ==> k in v.fields
    ensures members == Members(v, keys)
  {
    if keys == [] {
      return [];
    }
    members := CollectMembers(v, keys[1..]);
    members := [v.fields[keys[0]]] + members;
  }

  method CollectChildren(v: Value) returns (children: seq<Value>)
    ensures children == Children(v)
  {
    if v.Object? {
      var keys := WalkOrder(v.fields.Keys);
      children := CollectMembers(v, keys);
    } else {
      children := if v.Array? then v.items else [];
    }
  }

  predicate NodeSupported(v: Value, depth: nat) {
    depth <= MAX_DEPTH && (v.Number? ==> ValidNumber(v.text, v.float))
  }

  /** One step of the walk: replace the top of the stack by its children. */
  ghost function Step(stack: seq<Visit>): seq<Visit>
    requires stack != []
  {
    var top := stack[|stack| - 1];
    Push(stack[..|stack| - 1], Children(top.value), top.depth + 1)
  }

  /** A step visits one node and keeps what is left to check. */
  lemma StepKeeps(stack: seq<Visit>)
    requires stack != []
    ensures Remaining(stack) == 1 + Remaining(Step(stack))
    ensures AllSupported(stack)
            <==> NodeSupported(stack[|stack| - 1].value, stack[|stack| - 1].depth) && AllSupported(Step(stack))
  {
    var top := stack[|stack| - 1];
    RemainingPush(stack[..|stack| - 1], top.value, Children(top.value), top.depth + 1);
    SupportedPush(stack[..|stack| - 1], Children(top.value), top.depth + 1);
  }

  lemma StartKeeps(state: Value)
    ensures Remaining([Visit(state, 0)]) == Nodes(state)
    ensures AllSupported([Visit(state, 0)]) <==> Supported(state, 0)
  {
    assert [Visit(state, 0)][..0] == [];
  }

  /** The explicit-stack walk of a state accepts exactly the supported trees of bounded size. */
  method ValidateState(state: Value) returns (ok: bool)
    ensures ok <==> Nodes(state) <= MAX_NODES && Supported(state, 0)
  {
    hide Supported, Nodes, Children, Push;
    var stack := [Visit(state, 0)];
    var nodes := 0;
    StartKeeps(state);
    while stack != []
      invariant nodes + Remaining(stack) == Nodes(state)
      invariant nodes <= MAX_NODES
      invariant AllSupported(stack) <==> Supported(state, 0)
      decreases Remaining(stack)
    {
      var top := stack[|stack| - 1];
      StepKeeps(stack);
      nodes := nodes + 1;
      if nodes > MAX_NODES || !NodeSupported(top.value, top.depth) {
        return false;
      }
      var children := CollectChildren(top.value);
      stack := Push(stack[..|stack| - 1], children, top.depth + 1);
    }
    return true;
  }
}
