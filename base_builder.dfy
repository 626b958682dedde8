/** The graph builder's own bookkeeping (graph/base/base_builder.py): the `_nodes` table and the
    `_edges` log it keeps beside the langgraph `StateGraph` it drives. The `StateGraph` is foreign
    code; here it is the log of calls the builder makes to it. */
module GraphBuilding {
  import opened Wrappers
  import opened JsonValues

  /** langgraph's `START` and `END` node names. */
  const Start: string := "__start__"
  const End: string := "__end__"

  /** A Python callable (a node function or an edge condition), named by its identity. */
  datatype Callable = Callable(ident: string)

  /** What `add_node` records under a name: the function and the extra keyword arguments. */
  datatype NodeEntry = NodeEntry(func: Callable, kwargs: map<string, Json>)

  /** One `_edges` entry: (from_node, to_node, condition); a missing condition is `None`. */
  datatype Edge = Edge(fromNode: string, toNode: string, condition: Option<Callable>)

  /** A call the builder makes to its `StateGraph`. `GraphAddConditionalEdges` takes its arguments
      positionally, as `add_edge` passes them: source, path, path map. */
  datatype GraphCall =
    | GraphAddNode(name: string, func: Callable)
    | GraphAddEdge(start: string, end: string)
    | GraphAddConditionalEdges(source: string, path: string, pathMap: Callable)

  /** The call `add_edge` makes for an edge: conditional when the condition is truthy (every
      callable is), plain otherwise. */
  function EdgeCall(e: Edge): (c: GraphCall)
    ensures c.GraphAddConditionalEdges? <==> e.condition.Some?
    ensures c.GraphAddConditionalEdges? ==> c == GraphAddConditionalEdges(e.fromNode, e.toNode, e.condition.value)
    ensures c.GraphAddEdge? ==> c == GraphAddEdge(e.fromNode, e.toNode)
  {
    match e.condition
    case Some(cond) => GraphAddConditionalEdges(e.fromNode, e.toNode, cond)
    case None => GraphAddEdge(e.fromNode, e.toNode)
  }

  function EdgeCalls(edges: seq<Edge>): (r: seq<GraphCall>)
    ensures |r| == |edges| && forall i :: 0 <= i < |edges| ==> r[i] == EdgeCall(edges[i])
  {
    seq(|edges|, i requires 0 <= i < |edges| => EdgeCall(edges[i]))
  }

  /** The function the graph holds for a node name: that of the last `add_node` call for it. */
  function LastNodeFunc(calls: seq<GraphCall>, name: string): (r: Option<Callable>)
    ensures r.None? <==> forall i :: 0 <= i < |calls| ==> !(calls[i].GraphAddNode? && calls[i].name == name)
    ensures r.Some? ==> exists i :: 0 <= i < |calls| && calls[i] == GraphAddNode(name, r.value)
    decreases |calls|
  {
    if calls == [] then None
    else
      var last := calls[|calls| - 1];
      if last.GraphAddNode? && last.name == name then Some(last.func)
      else LastNodeFunc(calls[..|calls| - 1], name)
  }

  /** A later call for another name, or one that is not `add_node`, leaves a name's function as
      it was; an `add_node` for the name replaces it. */
  lemma LastNodeFuncAppend(calls: seq<GraphCall>, c: GraphCall, name: string)
    ensures LastNodeFunc(calls + [c], name) ==
      if c.GraphAddNode? && c.name == name then Some(c.func) else LastNodeFunc(calls, name)
  {
    assert (calls + [c])[..|calls|] == calls;
  }

  /** `a` is `b` with some elements dropped: every element of `a` occurs in `b`, in the same
      order. */
  predicate Subsequence<T(==)>(a: seq<T>, b: seq<T>)
    decreases |b|
  {
    a == [] || (b != [] && (if a[0] == b[0] then Subsequence(a[1..], b[1..]) else Subsequence(a, b[1..])))
  }

  /** Appending to the longer sequence keeps a subsequence one, and appending the same element
      to both does too. */
  lemma {:induction false} SubsequenceExtend<T>(a: seq<T>, b: seq<T>, x: T)
    requires Subsequence(a, b)
    ensures Subsequence(a, b + [x])
    ensures Subsequence(a + [x], b + [x])
    decreases |b|
  {
    if b == [] {
      assert a == [];
      assert ([x] + [])[1..] == [] && [x][1..] == [];
    } else {
      assert (b + [x])[1..] == b[1..] + [x];
      if a == [] {
        if b[0] != x {
          SubsequenceExtend(a, b[1..], x);
        } else {
          assert [x][1..] == [];
        }
      } else {
        assert (a + [x])[0] == a[0] && (a + [x])[1..] == a[1..] + [x];
        if a[0] == b[0] {
          SubsequenceExtend(a[1..], b[1..], x);
        } else {
          SubsequenceExtend(a, b[1..], x);
        }
      }
    }
  }

  /** The calls `add_termination_edges` makes: one edge to `END` per listed node, in order. */
  function TerminationCalls(nodes: seq<string>): (r: seq<GraphCall>)
    ensures |r| == |nodes| && forall i :: 0 <= i < |nodes| ==> r[i] == GraphAddEdge(nodes[i], End)
  {
    seq(|nodes|, i requires 0 <= i < |nodes| => GraphAddEdge(nodes[i], End))
  }

  /** `_nodes` holds, for each name, what the graph holds for it, and `_edges` is, in order, a part
      of the edge calls issued to the graph. */
  ghost predicate Consistent(calls: seq<GraphCall>, nodes: map<string, NodeEntry>, edges: seq<Edge>)
  {
    && (forall name :: name in nodes ==> LastNodeFunc(calls, name) == Some(nodes[name].func))
    && (forall name :: name !in nodes ==> LastNodeFunc(calls, name).None?)
    && Subsequence(EdgeCalls(edges), calls)
  }

  /** A call that adds no node leaves the builder's records consistent with the graph. */
  lemma OtherCallKeepsConsistent(calls: seq<GraphCall>, nodes: map<string, NodeEntry>, edges: seq<Edge>, c: GraphCall)
    requires Consistent(calls, nodes, edges) && !c.GraphAddNode?
    ensures Consistent(calls + [c], nodes, edges)
  {
    forall n ensures LastNodeFunc(calls + [c], n) == LastNodeFunc(calls, n) {
      LastNodeFuncAppend(calls, c, n);
    }
    SubsequenceExtend(EdgeCalls(edges), calls, c);
  }

  class GraphBuilder {
    const stateClass: string
    const config: map<string, Json>
    /** The `StateGraph` in `self.builder`, as the calls made to it. */
    var calls: seq<GraphCall>
    var nodes: map<string, NodeEntry>
    var edges: seq<Edge>

    ghost predicate Valid()
      reads this
    {
      Consistent(calls, nodes, edges)
    }

    /** `config or {}`: a missing or empty config becomes `{}`. */
    constructor(stateClass: string, config: Option<map<string, Json>>)
      ensures this.stateClass == stateClass
      ensures this.config == if config.Some? then config.value else map[]
      ensures calls == [] && nodes == map[] && edges == []
      ensures Valid()
    {
      this.stateClass := stateClass;
      this.config := if config.Some? then config.value else map[];
      calls := [];
      nodes := map[];
      edges := [];
    }

    /** `add_node`: registers the function with the graph and records it, with its keyword
        arguments, under the name, replacing any earlier entry for that name. */
    method AddNode(name: string, func: Callable, kwargs: map<string, Json>) returns (r: GraphBuilder)
      requires Valid()
      modifies this
      ensures r == this && Valid()
      ensures calls == old(calls) + [GraphAddNode(name, func)]
      ensures nodes == old(nodes)[name := NodeEntry(func, kwargs)]
      ensures edges == old(edges)
    {
      forall n ensures LastNodeFunc(calls + [GraphAddNode(name, func)], n) ==
                       if n == name then Some(func) else LastNodeFunc(calls, n) {
        LastNodeFuncAppend(calls, GraphAddNode(name, func), n);
      }
      SubsequenceExtend(EdgeCalls(edges), calls, GraphAddNode(name, func));
      calls := calls + [GraphAddNode(name, func)];
      nodes := nodes[name := NodeEntry(func, kwargs)];
      r := this;
    }

    /** `add_edge`: a conditional or a plain edge call to the graph, and the edge appended to
        `_edges` either way. */
    method AddEdge(fromNode: string, toNode: string, condition: Option<Callable>) returns (r: GraphBuilder)
      requires Valid()
      modifies this
      ensures r == this && Valid()
      ensures calls == old(calls) + [EdgeCall(Edge(fromNode, toNode, condition))]
      ensures edges == old(edges) + [Edge(fromNode, toNode, condition)]
      ensures nodes == old(nodes)
    {
      var e := Edge(fromNode, toNode, condition);
      var c: GraphCall;
      if condition.Some? {
        c := GraphAddConditionalEdges(fromNode, toNode, condition.value);
      } else {
        c := GraphAddEdge(fromNode, toNode);
      }
      forall n ensures LastNodeFunc(calls + [c], n) == LastNodeFunc(calls, n) {
        LastNodeFuncAppend(calls, c, n);
      }
      SubsequenceExtend(EdgeCalls(edges), calls, c);
      assert EdgeCalls(edges + [e]) == EdgeCalls(edges) + [c];
      calls := calls + [c];
      edges := edges + [e];
      r := this;
    }

    /** `set_entry_point`: an edge from `START` to the node, given to the graph only. */
    method SetEntryPoint(nodeName: string) returns (r: GraphBuilder)
      requires Valid()
      modifies this`calls
      ensures r == this && Valid()
      ensures calls == old(calls) + [GraphAddEdge(Start, nodeName)]
    {
      OtherCallKeepsConsistent(calls, nodes, edges, GraphAddEdge(Start, nodeName));
      calls := calls + [GraphAddEdge(Start, nodeName)];
      r := this;
    }

    /** `add_termination_edges`: an edge to `END` from each listed node, in order, given to the
        graph only. */
    method AddTerminationEdges(endNodes: seq<string>) returns (r: GraphBuilder)
      requires Valid()
      modifies this`calls
      ensures r == this && Valid()
      ensures calls == old(calls) + TerminationCalls(endNodes)
    {
      for i := 0 to |endNodes|
        invariant calls == old(calls) + TerminationCalls(endNodes[..i])
        invariant Valid()
      {
        var c := GraphAddEdge(endNodes[i], End);
        OtherCallKeepsConsistent(calls, nodes, edges, c);
        assert TerminationCalls(endNodes[..i + 1]) == TerminationCalls(endNodes[..i]) + [c];
        calls := calls + [c];
      }
      assert endNodes[..|endNodes|] == endNodes;
      r := this;
    }
  }
}
