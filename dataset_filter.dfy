/**
 * The dataset filter of the split tool. A file is its sequence of lines; a node is named
 * by a token, the text between spaces. Edge lines are `a b`; a feature line starts with
 * its node; a circle line is a circle name followed by its member nodes.
 */
module DatasetFilter {
  import opened Text

  /** The nodes of an edge line: both tokens when the line splits into exactly two, none otherwise. */
  function EdgeNodes(line: string): set<string> {
    var parts := Split(line, Space);
    if |parts| == 2 then {parts[0], parts[1]} else {}
  }

  /** Every token of every edge line that splits into exactly two tokens. */
  function UniqueNodes(edges: seq<string>): set<string> {
    set line, n | line in edges && n in EdgeNodes(line) :: n
  }

  /** The nodes that a feature file describes: the first token of each line. */
  function FeatureNodes(feat: seq<string>): set<string> {
    set line | line in feat :: FirstToken(line)
  }

  /** The members of a circle line: every token after the first. */
  function CircleMembers(line: string): seq<string> {
    Split(line, Space)[1..]
  }

  /** The nodes that belong to some circle. */
  function CircleNodes(circles: seq<string>): set<string> {
    set line, n | line in circles && n in CircleMembers(line) :: n
  }

  /** The lines whose first token names a node to keep, in their original order. */
  function Filtered(lines: seq<string>, keep: set<string>): seq<string> {
    if lines == [] then []
    else
      var last := lines[|lines| - 1];
      Filtered(lines[..|lines| - 1], keep) + (if FirstToken(last) in keep then [last] else [])
  }

  /** The positions of the lines `Filtered` keeps, in increasing order. */
  function KeptIndices(lines: seq<string>, keep: set<string>): seq<nat> {
    if lines == [] then []
    else
      var last := lines[|lines| - 1];
      KeptIndices(lines[..|lines| - 1], keep) + (if FirstToken(last) in keep then [|lines| - 1] else [])
  }

  /** `ExtractUniqueNodes`: reads the edge lines one by one and adds the nodes of each. */
  method ExtractUniqueNodes(edges: seq<string>) returns (nodes: set<string>)
    ensures nodes == UniqueNodes(edges)
  {
    nodes := {};
    for i := 0 to |edges|
      invariant nodes == UniqueNodes(edges[..i])
    {
      var parts := Split(edges[i], Space);
      if |parts| == 2 {
        nodes := nodes + {parts[0]};
        nodes := nodes + {parts[1]};
      }
      assert edges[..i + 1] == edges[..i] + [edges[i]];
      UniqueNodesSnoc(edges[..i], edges[i]);
    }
    assert edges[..|edges|] == edges;
  }

  lemma UniqueNodesSnoc(edges: seq<string>, line: string)
    ensures UniqueNodes(edges + [line]) == UniqueNodes(edges) + EdgeNodes(line)
  {
    var l := edges + [line];
    forall n | n in UniqueNodes(l) ensures n in UniqueNodes(edges) + EdgeNodes(line) {
      var e :| e in l && n in EdgeNodes(e);
      if e != line { assert e in edges; }
    }
    assert line in l;
    forall e | e in edges ensures e in l { }
  }

  /** `FilterFileByNodes`: copies, in order, the lines whose first token is a node to keep. */
  method FilterFileByNodes(lines: seq<string>, keep: set<string>) returns (out: seq<string>)
    ensures out == Filtered(lines, keep)
  {
    out := [];
    for i := 0 to |lines|
      invariant out == Filtered(lines[..i], keep)
    {
      var nodeId := Split(lines[i], Space)[0];
      if nodeId in keep {
        out := out + [lines[i]];
      }
      assert lines[..i + 1][..i] == lines[..i];
    }
    assert lines[..|lines|] == lines;
  }

  /**
   * `ValidateNodeCoverage`: removes from the edge nodes every node a feature line starts
   * with and every member of every circle; true when none is left.
   */
  method ValidateNodeCoverage(edges: seq<string>, feat: seq<string>, circles: seq<string>) returns (ok: bool)
    ensures ok <==> UniqueNodes(edges) <= FeatureNodes(feat) + CircleNodes(circles)
  {
    var nodes := ExtractUniqueNodes(edges);
    for i := 0 to |feat|
      invariant nodes == UniqueNodes(edges) - FeatureNodes(feat[..i])
    {
      var nodeId := Split(feat[i], Space)[0];
      nodes := nodes - {nodeId};
      FeatureNodesSnoc(feat[..i], feat[i]);
      assert feat[..i + 1] == feat[..i] + [feat[i]];
    }
    assert feat[..|feat|] == feat;
    for i := 0 to |circles|
      invariant nodes == UniqueNodes(edges) - FeatureNodes(feat) - CircleNodes(circles[..i])
    {
      var nodesInCircle := CircleMembers(circles[i]);
      nodes := RemoveAll(nodes, nodesInCircle);
      CircleNodesSnoc(circles[..i], circles[i]);
      assert circles[..i + 1] == circles[..i] + [circles[i]];
    }
    assert circles[..|circles|] == circles;
    ok := |nodes| == 0;
    assert ok <==> nodes == {};
  }

  /** Removes each of `ids` from `nodes`, one at a time. */
  method RemoveAll(nodes: set<string>, ids: seq<string>) returns (rest: set<string>)
    ensures rest == nodes - Elements(ids)
  {
    rest := nodes;
    for j := 0 to |ids|
      invariant rest == nodes - Elements(ids[..j])
    {
      rest := rest - {ids[j]};
      assert ids[..j + 1] == ids[..j] + [ids[j]];
      ElementsSnoc(ids[..j], ids[j]);
    }
    assert ids[..|ids|] == ids;
  }

  lemma FeatureNodesSnoc(feat: seq<string>, line: string)
    ensures FeatureNodes(feat + [line]) == FeatureNodes(feat) + {FirstToken(line)}
  {
    var l := feat + [line];
    assert line in l;
    forall e | e in feat ensures e in l { }
  }

  lemma CircleNodesSnoc(circles: seq<string>, line: string)
    ensures CircleNodes(circles + [line]) == CircleNodes(circles) + Elements(CircleMembers(line))
  {
    var l := circles + [line];
    forall n | n in CircleNodes(l) ensures n in CircleNodes(circles) || n in CircleMembers(line) {
      var e :| e in l && n in CircleMembers(e);
      if e != line { assert e in circles; }
    }
    assert line in l;
    forall e | e in circles ensures e in l { }
  }

  /** An edge line made of two space-free names yields exactly those two nodes. */
  lemma EdgeLineNodes(a: string, b: string)
    requires Space !in a && Space !in b
    ensures EdgeNodes(a + [Space] + b) == {a, b}
  {
    SplitField(a, b, Space);
    SplitWithout(b, Space);
  }

  /** A line with two or more spaces anywhere (two trailing, a doubled space, ...) adds no node. */
  lemma TwoSpacesIgnored(edges: seq<string>, line: string, i: nat, j: nat)
    requires i < j < |line| && line[i] == Space && line[j] == Space
    ensures EdgeNodes(line) == {}
    ensures UniqueNodes(edges + [line]) == UniqueNodes(edges)
  {
    SplitTwoSeparators(line, Space, i, j);
    UniqueNodesSnoc(edges, line);
  }

  /** The nodes of an edge file grow with the file: every line adds the nodes it names. */
  lemma UniqueNodesOfLine(edges: seq<string>, k: nat)
    requires k < |edges|
    ensures EdgeNodes(edges[k]) <= UniqueNodes(edges)
  {
    assert edges[k] in edges;
  }

  /**
   * `Filtered` keeps the lines at the positions `KeptIndices` lists, unchanged and in
   * increasing order, and those positions are exactly the lines whose first token is kept.
   */
  lemma {:induction false} FilteredIndices(lines: seq<string>, keep: set<string>)
    ensures |KeptIndices(lines, keep)| == |Filtered(lines, keep)|
    ensures forall j :: 0 <= j < |KeptIndices(lines, keep)| ==>
      KeptIndices(lines, keep)[j] < |lines| && Filtered(lines, keep)[j] == lines[KeptIndices(lines, keep)[j]]
    ensures forall j, j' :: 0 <= j < j' < |KeptIndices(lines, keep)| ==> KeptIndices(lines, keep)[j] < KeptIndices(lines, keep)[j']
    ensures forall k :: 0 <= k < |lines| ==> (FirstToken(lines[k]) in keep <==> k in KeptIndices(lines, keep))
  {
    if lines != [] {
      var p := lines[..|lines| - 1];
      FilteredIndices(p, keep);
      var idx, out := KeptIndices(lines, keep), Filtered(lines, keep);
      var pidx, pout := KeptIndices(p, keep), Filtered(p, keep);
      assert idx[..|pidx|] == pidx && out[..|pout|] == pout;
      forall j | 0 <= j < |idx|
        ensures idx[j] < |lines| && out[j] == lines[idx[j]]
      {
        if j < |pidx| {
          assert idx[j] == pidx[j] && out[j] == pout[j] && lines[pidx[j]] == p[pidx[j]];
        }
      }
      forall k | 0 <= k < |lines|
        ensures FirstToken(lines[k]) in keep <==> k in idx
      {
        if k < |p| {
          assert lines[k] == p[k];
          assert k in pidx ==> k in idx;
          assert k in idx && k != |lines| - 1 ==> k in pidx;
        }
      }
    }
  }

  /** Every line the filter keeps starts with a node to keep. */
  lemma {:induction false} FilteredLinesKept(lines: seq<string>, keep: set<string>)
    ensures forall j :: 0 <= j < |Filtered(lines, keep)| ==> FirstToken(Filtered(lines, keep)[j]) in keep
  {
    if lines != [] {
      FilteredLinesKept(lines[..|lines| - 1], keep);
    }
  }

  /** Filtering the output again with the same nodes changes nothing. */
  lemma {:induction false} FilteredIdempotent(lines: seq<string>, keep: set<string>)
    ensures Filtered(Filtered(lines, keep), keep) == Filtered(lines, keep)
  {
    if lines != [] {
      var p := lines[..|lines| - 1];
      var last := lines[|lines| - 1];
      FilteredIdempotent(p, keep);
      if FirstToken(last) in keep {
        var out := Filtered(p, keep) + [last];
        assert out[..|out| - 1] == Filtered(p, keep) && out[|out| - 1] == last;
        assert Filtered(out, keep) == Filtered(Filtered(p, keep), keep) + [last];
      } else {
        assert Filtered(lines, keep) == Filtered(p, keep) + [] == Filtered(p, keep);
      }
    }
  }

  /**
   * Coverage depends only on which lines the feature and circle files hold, not on their
   * order or repetition: a node once removed stays removed.
   */
  lemma CoverageIgnoresOrder(edges: seq<string>, feat: seq<string>, circles: seq<string>,
                             feat': seq<string>, circles': seq<string>)
    requires multiset(feat) == multiset(feat') && multiset(circles) == multiset(circles')
    ensures FeatureNodes(feat) + CircleNodes(circles) == FeatureNodes(feat') + CircleNodes(circles')
  {
    SameElements(feat, feat');
    SameElements(circles, circles');
  }

  lemma SameElements(s: seq<string>, t: seq<string>)
    requires multiset(s) == multiset(t)
    ensures forall x :: x in s <==> x in t
  {
    forall x ensures x in s <==> x in t {
      assert x in s <==> x in multiset(s);
      assert x in t <==> x in multiset(t);
    }
  }
}
