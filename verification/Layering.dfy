/** The layers of a drawn graph: longest paths by relaxation in place (studio/studio.js, lines 117-142). */
module Layering {
  import opened Prelude

  datatype Arc = Arc(source: string, target: string)

  /** Node ids and edges of a topology. */
  datatype Topology = Topology(nodes: seq<string>, arcs: seq<Arc>)
  {
    /** An edge between two nodes that are drawn; other edges compare with `undefined` and relax nothing. */
    predicate Step(u: string, v: string) { u in nodes && v in nodes && Arc(u, v) in arcs }

    predicate Walk(p: seq<string>) {
      p != [] && p[0] in nodes && forall i :: 0 <= i < |p| - 1 ==> Step(p[i], p[i + 1])
    }

    /** A walk that ends at v over this many edges. */
    predicate Leads(p: seq<string>, v: string, length: nat) { Walk(p) && p[|p| - 1] == v && |p| - 1 == length }

    ghost predicate Acyclic() { forall p :: Walk(p) ==> Distinct(p) }

    /** The length of the longest path that ends at v. */
    ghost predicate LongestTo(v: string, length: nat) {
      (exists p :: Leads(p, v, length)) && forall p, l: nat :: Leads(p, v, l) ==> l <= length
    }
  }

  type Layers = map<string, nat>

  ghost predicate Total(t: Topology, layer: Layers) { layer.Keys == Chosen(t.nodes) }

  /** Every layer is the length of some walk to the node. */
  ghost predicate Witnessed(t: Topology, layer: Layers) {
    Total(t, layer) && forall v :: v in layer ==> exists p :: t.Leads(p, v, layer[v])
  }

  /** Layers are at least the length of every walk of up to k edges. */
  ghost predicate Covers(t: Topology, layer: Layers, k: int) {
    Total(t, layer) && forall p, v, l: nat :: t.Leads(p, v, l) && l <= k ==> v in layer && l <= layer[v]
  }

  /** No edge can be relaxed. */
  predicate Relaxed(t: Topology, layer: Layers) {
    forall i :: 0 <= i < |t.arcs| && t.arcs[i].source in layer && t.arcs[i].target in layer ==>
      layer[t.arcs[i].target] >= layer[t.arcs[i].source] + 1
  }

  lemma {:induction false} SetAtMost(s: seq<string>)
    ensures |Chosen(s)| <= |s|
  {
    if s != [] {
      var last := |s| - 1;
      SetAtMost(s[..last]);
      assert Chosen(s) == Chosen(s[..last]) + {s[last]};
    }
  }

  lemma {:induction false} SubsetSize(a: set<string>, b: set<string>)
    requires a <= b
    ensures |a| <= |b|
  {
    assert b == a + (b - a);
  }

  /** A walk without repetition has no more nodes than there are. */
  lemma {:induction false} ShortWalk(t: Topology, p: seq<string>)
    requires t.Walk(p) && Distinct(p)
    ensures |p| <= |t.nodes|
  {
    forall i | 0 <= i < |p|
      ensures p[i] in t.nodes
    {
      assert i > 0 ==> t.Step(p[i - 1], p[i]);
    }
    ChosenSize(p);
    SetAtMost(t.nodes);
    SubsetSize(Chosen(p), Chosen(t.nodes));
  }

  lemma {:induction false} Extend(t: Topology, p: seq<string>, u: string, v: string, length: nat)
    requires t.Leads(p, u, length) && t.Step(u, v)
    ensures t.Leads(p + [v], v, length + 1)
  {
    var q := p + [v];
    assert forall i :: 0 <= i < |p| ==> q[i] == p[i];
  }

  /** A walk of more than one node is a shorter walk and an edge. */
  lemma {:induction false} Shorten(t: Topology, p: seq<string>, v: string, length: nat)
    requires t.Leads(p, v, length) && length > 0
    ensures |p| >= 2 && t.Leads(p[..|p| - 1], p[|p| - 2], length - 1) && t.Step(p[|p| - 2], v)
  {
  }

  /** One pass over the edges. */
  method RelaxOnce(t: Topology, start: Layers, ghost k: nat) returns (layer: Layers, changed: bool)
    requires Witnessed(t, start) && Covers(t, start, k)
    ensures Witnessed(t, layer) && Covers(t, layer, k + 1)
    ensures !changed ==> layer == start && Relaxed(t, layer)
  {
    hide Witnessed, Covers, Topology.Leads;
    layer, changed := start, false;
    for i := 0 to |t.arcs|
      invariant !changed ==> layer == start
      invariant Witnessed(t, layer) && layer.Keys == start.Keys
      invariant forall v :: v in start ==> layer[v] >= start[v]
      invariant forall j :: 0 <= j < i && t.arcs[j].source in start && t.arcs[j].target in start ==>
                  layer[t.arcs[j].target] >= start[t.arcs[j].source] + 1
    {
      var u, v := t.arcs[i].source, t.arcs[i].target;
      if u in layer && v in layer && layer[v] < layer[u] + 1 {
        RelaxWitnessed(t, layer, u, v);
        layer, changed := layer[v := layer[u] + 1], true;
      }
    }
    PassCovers(t, start, layer, k);
  }

  lemma {:induction false} RelaxWitnessed(t: Topology, layer: Layers, u: string, v: string)
    requires Witnessed(t, layer) && u in layer && v in layer && Arc(u, v) in t.arcs
    ensures Witnessed(t, layer[v := layer[u] + 1]) && Total(t, layer)
  {
    hide Topology.Leads;
    assert t.Step(u, v);
    var p :| t.Leads(p, u, layer[u]);
    Extend(t, p, u, v, layer[u]);
  }

  lemma {:induction false} PassCovers(t: Topology, start: Layers, layer: Layers, k: nat)
    requires Witnessed(t, start) && Witnessed(t, layer) && Covers(t, start, k)
    requires forall v :: v in start ==> v in layer && layer[v] >= start[v]
    requires forall j :: 0 <= j < |t.arcs| && t.arcs[j].source in start && t.arcs[j].target in start ==>
               layer[t.arcs[j].target] >= start[t.arcs[j].source] + 1
    ensures Covers(t, layer, k + 1)
  {
    hide Topology.Leads;
    forall p, v, l: nat | t.Leads(p, v, l) && l <= k + 1
      ensures v in layer && l <= layer[v]
    {
      if l > 0 {
        Shorten(t, p, v, l);
        var u := p[|p| - 2];
        var j :| 0 <= j < |t.arcs| && t.arcs[j] == Arc(u, v);
      }
    }
  }

  lemma {:induction false} ZeroLayers(t: Topology, layer: Layers)
    requires Total(t, layer) && forall v :: v in layer ==> layer[v] == 0
    ensures Witnessed(t, layer) && Covers(t, layer, 0)
  {
    forall v | v in layer
      ensures exists p :: t.Leads(p, v, 0)
    {
      assert t.Leads([v], v, 0);
    }
    forall p, v, l: nat | t.Leads(p, v, l) && l <= 0
      ensures v in layer
    {
      assert p[0] == v;
    }
  }

  /** Where nothing can be relaxed, layers are at least the length of every walk. */
  lemma {:induction false} RelaxedCovers(t: Topology, layer: Layers, p: seq<string>, v: string, length: nat)
    requires Total(t, layer) && Relaxed(t, layer) && t.Leads(p, v, length)
    ensures v in layer && length <= layer[v]
    decreases length
  {
    if length > 0 {
      Shorten(t, p, v, length);
      RelaxedCovers(t, layer, p[..|p| - 1], p[|p| - 2], length - 1);
      var j :| 0 <= j < |t.arcs| && t.arcs[j] == Arc(p[|p| - 2], v);
    }
  }

  /** Without cycles, as many passes as nodes leave nothing to relax. */
  lemma {:induction false} CoveredIsRelaxed(t: Topology, layer: Layers)
    requires t.Acyclic() && Witnessed(t, layer) && Covers(t, layer, |t.nodes|)
    ensures Relaxed(t, layer)
  {
    hide Topology.Leads, Topology.Acyclic;
    forall i | 0 <= i < |t.arcs| && t.arcs[i].source in layer && t.arcs[i].target in layer
      ensures layer[t.arcs[i].target] >= layer[t.arcs[i].source] + 1
    {
      var u, v := t.arcs[i].source, t.arcs[i].target;
      var p :| t.Leads(p, u, layer[u]);
      assert t.Step(u, v);
      Extend(t, p, u, v, layer[u]);
      AcyclicLength(t, p + [v], v, layer[u] + 1);
    }
  }

  lemma {:induction false} AcyclicLength(t: Topology, p: seq<string>, v: string, length: nat)
    requires t.Acyclic() && t.Leads(p, v, length)
    ensures length < |t.nodes|
  {
    ShortWalk(t, p);
  }

  /** Layers that cannot be relaxed and are lengths of walks are the longest ones. */
  lemma {:induction false} RelaxedIsLongest(t: Topology, layer: Layers, v: string)
    requires Witnessed(t, layer) && Relaxed(t, layer) && v in layer
    ensures t.LongestTo(v, layer[v])
  {
    hide Topology.Leads;
    forall p, l: nat | t.Leads(p, v, l)
      ensures l <= layer[v]
    {
      RelaxedCovers(t, layer, p, v, l);
    }
  }

  method Highest(layer: Layers) returns (highest: nat)
    ensures forall v :: v in layer ==> layer[v] <= highest
    ensures highest == 0 || exists v :: v in layer && layer[v] == highest
  {
    highest := 0;
    var left := layer.Keys;
    while left != {}
      invariant left <= layer.Keys && forall v :: v in layer && v !in left ==> layer[v] <= highest
      invariant highest == 0 || exists v :: v in layer && layer[v] == highest
    {
      var v :| v in left;
      if layer[v] > highest { highest := layer[v]; }
      left := left - {v};
    }
  }

  /** The relaxation: at most one pass per node, stopping when nothing changes. */
  method Relax(t: Topology) returns (layer: Layers)
    ensures Witnessed(t, layer)
    ensures t.Acyclic() ==> Relaxed(t, layer)
  {
    layer := map n | n in t.nodes :: 0;
    ZeroLayers(t, layer);
    for pass := 0 to |t.nodes|
      invariant Witnessed(t, layer) && Covers(t, layer, pass)
    {
      var changed;
      layer, changed := RelaxOnce(t, layer, pass);
      if !changed { return; }
    }
    if t.Acyclic() {
      CoveredIsRelaxed(t, layer);
    }
  }

  predicate EndIsSource(t: Topology) {
    END in t.nodes && exists i :: 0 <= i < |t.arcs| && t.arcs[i].source == END && t.arcs[i].target in t.nodes
  }

  /** `layerOf`: without cycles every node but the end is drawn at the length of the longest path to it, the end is
      drawn in the last layer, and every edge leads to a later layer if and only if none starts at the end. */
  method LayerOf(t: Topology) returns (layer: Layers)
    ensures Total(t, layer)
    ensures t.Acyclic() ==> forall v :: v in layer && v != END ==> t.LongestTo(v, layer[v])
    ensures END in layer ==> forall v :: v in layer ==> layer[v] <= layer[END]
    ensures t.Acyclic() ==> (Relaxed(t, layer) <==> !EndIsSource(t))
  {
    layer := Relax(t);
    ghost var relaxed := layer;
    var highest := Highest(layer);
    if END in layer { layer := layer[END := highest]; }
    if t.Acyclic() {
      forall v | v in layer && v != END
        ensures t.LongestTo(v, layer[v])
      {
        RelaxedIsLongest(t, relaxed, v);
      }
    }
  }
}
