/**
 * The line formats of the dataset files the importers read, and how a file is loaded
 * line by line. Tokens are separated by single spaces:
 *   edges      `from to`
 *   feat       `node f1 f2 ...`   (integers)
 *   circles    `circle m1 m2 ...`
 *   egofeat    `f1 f2 ...`        (first line only)
 *   featnames  one name per line
 */
module DatasetFiles {
  import opened Wrappers
  import opened Text

  datatype Edge = Edge(from: string, to: string)
  datatype Feature = Feature(nodeId: string, features: seq<int>)
  datatype Circle = Circle(name: string, members: seq<string>)

  /** What a line gives: nothing (it is skipped), a document, or an exception that ends the import. */
  datatype LineResult<T> = Skipped | Parsed(doc: T) | Malformed

  /** `tokens.Select(int.Parse).ToList()`: None when some token does not parse. */
  function ParseInts(tokens: seq<string>): Option<seq<int>> {
    if tokens == [] then Some([])
    else
      match ParseInts(tokens[..|tokens| - 1])
      case None => None
      case Some(vs) =>
        match ParseInt(tokens[|tokens| - 1])
        case None => None
        case Some(v) => Some(vs + [v])
  }

  /** An edge line: exactly two tokens. */
  function EdgeLine(line: string): LineResult<Edge> {
    var parts := Split(line, Space);
    if |parts| == 2 then Parsed(Edge(parts[0], parts[1])) else Skipped
  }

  /** A feature line: a node and its integer features; a token that is not an integer throws. */
  function FeatureLine(line: string): LineResult<Feature> {
    var parts := Split(line, Space);
    if |parts| > 1 then
      match ParseInts(parts[1..])
      case Some(fs) => Parsed(Feature(parts[0], fs))
      case None => Malformed
    else Skipped
  }

  /** A circle line: a circle name and its members, kept as text. */
  function CircleLine(line: string): LineResult<Circle> {
    var parts := Split(line, Space);
    if |parts| > 1 then Parsed(Circle(parts[0], parts[1..])) else Skipped
  }

  /** The features of the ego node: every token of the first line, as integers; nothing for an empty file. */
  function EgoFeatures(lines: seq<string>): LineResult<seq<int>> {
    if lines == [] then Skipped
    else
      match ParseInts(Split(lines[0], Space))
      case Some(fs) => Parsed(fs)
      case None => Malformed
  }

  /** The documents loaded so far and, once a line has thrown, its position. */
  datatype Loaded<T> = Loaded(docs: seq<T>, failedAt: Option<nat>)

  /** One more line, the `i`-th: nothing changes once a line has thrown. */
  function Step<T>(prev: Loaded<T>, r: LineResult<T>, i: nat): Loaded<T> {
    if prev.failedAt.Some? then prev
    else
      match r
      case Skipped => prev
      case Parsed(d) => Loaded(prev.docs + [d], None)
      case Malformed => Loaded(prev.docs, Some(i))
  }

  /** Reading a file line by line, inserting each document as soon as its line is parsed. */
  function Load<T>(lines: seq<string>, parse: string -> LineResult<T>): Loaded<T> {
    if lines == [] then Loaded([], None)
    else Step(Load(lines[..|lines| - 1], parse), parse(lines[|lines| - 1]), |lines| - 1)
  }

  /** The positions of the lines that give a document, in increasing order. */
  function ParsedIndices<T>(lines: seq<string>, parse: string -> LineResult<T>): seq<nat> {
    if lines == [] then []
    else ParsedIndices(lines[..|lines| - 1], parse) + (if parse(lines[|lines| - 1]).Parsed? then [|lines| - 1] else [])
  }

  /** The endpoints of a list of edges. */
  function Endpoints(edges: seq<Edge>): set<string> {
    (set e | e in edges :: e.from) + (set e | e in edges :: e.to)
  }

  /** The ego-feature documents a file adds: one under the node "ego", or none. */
  function EgoDocs(lines: seq<string>): seq<Feature> {
    match EgoFeatures(lines)
    case Parsed(fs) => [Feature("ego", fs)]
    case _ => []
  }

  // ----- documents shared by the importers -----

  /** An edge document: `_from` and `_to` are document handles in `users`. */
  datatype EdgeRef = EdgeRef(from: string, to: string)

  /** The handle of the user document with key `key`. */
  function UserHandle(key: string): string {
    "users/" + key
  }

  /** The edge documents of a list of edges. */
  function Refs(es: seq<Edge>): (rs: seq<EdgeRef>)
    ensures |rs| == |es|
  {
    seq(|es|, k requires 0 <= k < |es| => EdgeRef(UserHandle(es[k].from), UserHandle(es[k].to)))
  }

  predicate NoDuplicates(s: seq<string>) {
    forall i, j :: 0 <= i < j < |s| ==> s[i] != s[j]
  }

  lemma EndpointsSnoc(es: seq<Edge>, e: Edge)
    ensures Endpoints(es + [e]) == Endpoints(es) + {e.from, e.to}
  {
    var l := es + [e];
    assert e in l;
    forall x | x in es ensures x in l { }
    forall n | n in Endpoints(l) ensures n in Endpoints(es) + {e.from, e.to} {
      var x :| x in l && (n == x.from || n == x.to);
      if x != e { assert x in es; }
    }
  }

  /** `int.Parse` on the rendering of each integer. */
  function Render(values: seq<int>): (tokens: seq<string>)
    ensures |tokens| == |values|
  {
    seq(|values|, k requires 0 <= k < |values| => IntToString(values[k]))
  }

  // ----- parsing integers -----

  /** The integers parse exactly when every token does, and then each value is its token's. */
  lemma {:induction false} ParseIntsEach(tokens: seq<string>)
    ensures ParseInts(tokens).Some? <==> forall k :: 0 <= k < |tokens| ==> ParseInt(tokens[k]).Some?
    ensures ParseInts(tokens).Some? ==>
      |ParseInts(tokens).value| == |tokens|
      && forall k :: 0 <= k < |tokens| ==> ParseInts(tokens).value[k] == ParseInt(tokens[k]).value
  {
    if tokens != [] {
      var init := tokens[..|tokens| - 1];
      ParseIntsEach(init);
      assert forall k :: 0 <= k < |init| ==> init[k] == tokens[k];
    }
  }

  /** Rendering 32-bit integers and parsing the tokens back gives the integers. */
  lemma RenderParse(values: seq<int>)
    requires forall k :: 0 <= k < |values| ==> IsInt32(values[k])
    ensures ParseInts(Render(values)) == Some(values)
  {
    var tokens := Render(values);
    forall k | 0 <= k < |tokens| ensures ParseInt(tokens[k]) == Some(values[k]) {
      ParseIntToString(values[k]);
    }
    ParseIntsEach(tokens);
    var r := ParseInts(tokens).value;
    assert forall k :: 0 <= k < |r| ==> r[k] == values[k];
    assert r == values;
  }

  // ----- line formats -----

  /** An edge line never throws. */
  lemma EdgeLineTotal(line: string)
    ensures !EdgeLine(line).Malformed?
  {
  }

  /** A circle line never throws. */
  lemma CircleLineTotal(line: string)
    ensures !CircleLine(line).Malformed?
  {
  }

  /** Writing an edge as its two names with one space between reads back as the edge. */
  lemma EdgeLineRoundTrip(e: Edge)
    requires Space !in e.from && Space !in e.to
    ensures EdgeLine(e.from + [Space] + e.to) == Parsed(e)
  {
    SplitField(e.from, e.to, Space);
    SplitWithout(e.to, Space);
  }

  /** Writing a node and its 32-bit features, space separated, reads back as the feature document. */
  lemma FeatureLineRoundTrip(f: Feature)
    requires Space !in f.nodeId && |f.features| >= 1
    requires forall k :: 0 <= k < |f.features| ==> IsInt32(f.features[k])
    ensures FeatureLine(f.nodeId + [Space] + JoinWith(Render(f.features), [Space])) == Parsed(f)
  {
    var tokens := Render(f.features);
    forall k | 0 <= k < |tokens| ensures Space !in tokens[k] {
      IntToStringPlain(f.features[k]);
    }
    SplitJoin(tokens, Space);
    SplitField(f.nodeId, JoinWith(tokens, [Space]), Space);
    RenderParse(f.features);
    assert ([f.nodeId] + tokens)[1..] == tokens;
  }

  /** Writing a circle and its members, space separated, reads back as the circle. */
  lemma CircleLineRoundTrip(c: Circle)
    requires Space !in c.name && |c.members| >= 1
    requires forall k :: 0 <= k < |c.members| ==> Space !in c.members[k]
    ensures CircleLine(c.name + [Space] + JoinWith(c.members, [Space])) == Parsed(c)
  {
    SplitJoin(c.members, Space);
    SplitField(c.name, JoinWith(c.members, [Space]), Space);
    assert ([c.name] + c.members)[1..] == c.members;
  }

  /** A feature line with a trailing space has an empty last token, which `int.Parse` rejects. */
  lemma FeatureLineTrailingSpace(s: string)
    ensures FeatureLine(s + [Space]) == Malformed
  {
    var parts := Split(s + [Space], Space);
    SplitTrailing(s, Space);
    assert ParseInt("") == None;
    var tail := parts[1..];
    assert tail[|tail| - 1] == "";
    ParseIntsEach(tail);
  }

  // ----- loading a file -----

  lemma LoadSnoc<T>(lines: seq<string>, parse: string -> LineResult<T>, i: nat)
    requires i < |lines|
    ensures Load(lines[..i + 1], parse) == Step(Load(lines[..i], parse), parse(lines[i]), i)
  {
    assert lines[..i + 1][..i] == lines[..i];
  }

  /** Once a line has thrown, the rest of the file changes nothing. */
  lemma {:induction false} LoadStops<T>(lines: seq<string>, parse: string -> LineResult<T>, k: nat)
    requires k <= |lines| && Load(lines[..k], parse).failedAt.Some?
    ensures Load(lines, parse) == Load(lines[..k], parse)
    decreases |lines| - k
  {
    if k < |lines| {
      LoadSnoc(lines, parse, k);
      LoadStops(lines, parse, k + 1);
    } else {
      assert lines[..k] == lines;
    }
  }

  /**
   * The load fails exactly when some line throws, at the first such line; the documents
   * are then those of the lines before it.
   */
  lemma {:induction false} LoadFailure<T>(lines: seq<string>, parse: string -> LineResult<T>)
    ensures Load(lines, parse).failedAt.None? <==> forall k :: 0 <= k < |lines| ==> !parse(lines[k]).Malformed?
    ensures Load(lines, parse).failedAt.Some? ==>
      var k := Load(lines, parse).failedAt.value;
      k < |lines| && parse(lines[k]).Malformed?
      && (forall k' :: 0 <= k' < k ==> !parse(lines[k']).Malformed?)
      && Load(lines, parse).docs == Load(lines[..k], parse).docs
  {
    if lines != [] {
      var n := |lines| - 1;
      var init := lines[..n];
      LoadFailure(init, parse);
      assert forall k :: 0 <= k < n ==> init[k] == lines[k];
      var prev := Load(init, parse);
      if prev.failedAt.Some? {
        var k := prev.failedAt.value;
        assert init[..k] == lines[..k];
      } else if parse(lines[n]).Malformed? {
        assert init == lines[..n];
      }
    }
  }

  /**
   * A load in which no line throws keeps, in file order, exactly the documents of the
   * lines at `ParsedIndices`, which are the lines that give one (`ParsedIndicesExact`).
   */
  lemma {:induction false} LoadIndices<T>(lines: seq<string>, parse: string -> LineResult<T>)
    requires Load(lines, parse).failedAt.None?
    ensures |ParsedIndices(lines, parse)| == |Load(lines, parse).docs|
    ensures forall j :: 0 <= j < |ParsedIndices(lines, parse)| ==>
      ParsedIndices(lines, parse)[j] < |lines|
      && parse(lines[ParsedIndices(lines, parse)[j]]) == Parsed(Load(lines, parse).docs[j])
  {
    if lines != [] {
      var n := |lines| - 1;
      var p := lines[..n];
      assert Load(p, parse).failedAt.None?;
      LoadIndices(p, parse);
      var idx, docs := ParsedIndices(lines, parse), Load(lines, parse).docs;
      var pidx, pdocs := ParsedIndices(p, parse), Load(p, parse).docs;
      assert idx[..|pidx|] == pidx && docs[..|pdocs|] == pdocs;
      forall j | 0 <= j < |idx|
        ensures idx[j] < |lines| && parse(lines[idx[j]]) == Parsed(docs[j])
      {
        if j < |pidx| {
          assert idx[j] == pidx[j] && docs[j] == pdocs[j] && lines[pidx[j]] == p[pidx[j]];
        }
      }
    }
  }

  /** `ParsedIndices` lists, in increasing order, exactly the positions of the lines that give a document. */
  lemma {:induction false} ParsedIndicesExact<T>(lines: seq<string>, parse: string -> LineResult<T>)
    ensures forall j :: 0 <= j < |ParsedIndices(lines, parse)| ==> ParsedIndices(lines, parse)[j] < |lines|
    ensures forall j, j' :: 0 <= j < j' < |ParsedIndices(lines, parse)| ==>
      ParsedIndices(lines, parse)[j] < ParsedIndices(lines, parse)[j']
    ensures forall k :: 0 <= k < |lines| ==> (parse(lines[k]).Parsed? <==> k in ParsedIndices(lines, parse))
  {
    if lines != [] {
      var n := |lines| - 1;
      var p := lines[..n];
      ParsedIndicesExact(p, parse);
      var idx, pidx := ParsedIndices(lines, parse), ParsedIndices(p, parse);
      assert idx[..|pidx|] == pidx;
      forall k | 0 <= k < |lines|
        ensures parse(lines[k]).Parsed? <==> k in idx
      {
        if k < n {
          assert lines[k] == p[k];
          assert k in pidx ==> k in idx;
          assert k in idx && k != n ==> k in pidx;
        }
      }
    }
  }

  /** `ParseInts` as the importers run it: the tokens one after another, stopping at the first that throws. */
  method ParseIntList(tokens: seq<string>) returns (r: Option<seq<int>>)
    ensures r == ParseInts(tokens)
  {
    var values := [];
    for i := 0 to |tokens|
      invariant ParseInts(tokens[..i]) == Some(values)
    {
      assert tokens[..i + 1][..i] == tokens[..i];
      var v := ParseInt(tokens[i]);
      if v.None? {
        ParseIntsEach(tokens[..i + 1]);
        ParseIntsEach(tokens);
        assert tokens[..i + 1][i] == tokens[i];
        return None;
      }
      values := values + [v.value];
    }
    assert tokens[..|tokens|] == tokens;
    return Some(values);
  }
}
