/**
 * The ArangoDB importer. Collections are created on first use. Documents are keyed by
 * `_key`, and the server rejects a document whose key is already taken or is not a legal
 * key: that exception is not caught, so it ends the import like a parse error does.
 * The importer looks up each edge endpoint in `users` before inserting it.
 */
module ArangoDBImport {
  import opened Wrappers
  import opened Text
  import opened DatasetFiles

  datatype CollectionType = DocumentCollection | EdgeCollection

  /** The collections after creating `name` with type `t` unless it already exists. */
  function Ensured(collections: map<string, CollectionType>, name: string, t: CollectionType): map<string, CollectionType> {
    if name in collections then collections else collections[name := t]
  }

  /**
   * A key the server accepts. ArangoDB refuses the empty key; its other rules (allowed
   * characters, at most 254 bytes) are not modelled.
   */
  predicate ValidKey(key: string) {
    key != ""
  }

  // ----- users and edges -----

  /**
   * Looks up `key` and inserts it when the lookup says it is absent. A lookup that fails
   * with a server error reads as absent. The insert of a key that is in fact there, or of
   * an illegal key such as the empty one, is rejected (None).
   */
  function AddUser(users: seq<string>, key: string, lookupFails: string -> bool): Option<seq<string>> {
    if key in users && !lookupFails(key) then Some(users)
    else if key in users || !ValidKey(key) then None
    else Some(users + [key])
  }

  /** The users, the edges, and whether the import is still going. */
  datatype Graph = Graph(users: seq<string>, edges: seq<EdgeRef>, ok: bool)

  /** One line of the edge file. */
  function EdgeStep(g: Graph, line: string, lookupFails: string -> bool): Graph {
    if !g.ok then g
    else
      match EdgeLine(line)
      case Parsed(e) =>
        (match AddUser(g.users, e.from, lookupFails)
         case None => Graph(g.users, g.edges, false)
         case Some(u1) =>
           match AddUser(u1, e.to, lookupFails)
           case None => Graph(u1, g.edges, false)
           case Some(u2) => Graph(u2, g.edges + [EdgeRef(UserHandle(e.from), UserHandle(e.to))], true))
      case _ => g
  }

  /** The edge file, line by line. */
  function ImportedEdges(g: Graph, lines: seq<string>, lookupFails: string -> bool): Graph {
    if lines == [] then g
    else EdgeStep(ImportedEdges(g, lines[..|lines| - 1], lookupFails), lines[|lines| - 1], lookupFails)
  }

  // ----- keyed documents -----

  /** The documents of a keyed collection, and whether the import is still going. */
  datatype Keyed<T> = Keyed(docs: map<string, T>, ok: bool)

  /** One line: its document is inserted unless its key is taken or illegal, which ends the import. */
  function KeyedStep<T>(m: Keyed<T>, r: LineResult<(string, T)>): Keyed<T> {
    if !m.ok then m
    else
      match r
      case Skipped => m
      case Malformed => Keyed(m.docs, false)
      case Parsed(kv) => if kv.0 in m.docs || !ValidKey(kv.0) then Keyed(m.docs, false) else Keyed(m.docs[kv.0 := kv.1], true)
  }

  /** A keyed file, line by line; `parse` is given each line with its position. */
  function ImportedKeyed<T>(m: Keyed<T>, lines: seq<string>, parse: (nat, string) -> LineResult<(string, T)>): Keyed<T> {
    if lines == [] then m
    else KeyedStep(ImportedKeyed(m, lines[..|lines| - 1], parse), parse(|lines| - 1, lines[|lines| - 1]))
  }

  /** A feature line as a document keyed by its node. */
  function FeatureEntry(i: nat, line: string): LineResult<(string, seq<int>)> {
    match FeatureLine(line)
    case Parsed(f) => Parsed((f.nodeId, f.features))
    case Skipped => Skipped
    case Malformed => Malformed
  }

  /** A circle line as a document keyed by the circle's name. */
  function CircleEntry(i: nat, line: string): LineResult<(string, seq<string>)> {
    match CircleLine(line)
    case Parsed(c) => Parsed((c.name, c.members))
    case Skipped => Skipped
    case Malformed => Malformed
  }

  /** The `i`-th line of the feature-name file, keyed by `i` in decimal. */
  function FeatureNameEntry(i: nat, line: string): LineResult<(string, string)> {
    Parsed((IntToString(i), line))
  }

  class ArangoDBImporter {
    var collections: map<string, CollectionType>
    /** The keys of the `users` documents, in insertion order. */
    var users: seq<string>
    var edges: seq<EdgeRef>
    var features: map<string, seq<int>>
    var circles: map<string, seq<string>>
    var egoFeatures: map<string, seq<int>>
    var featureNames: map<string, string>
    /** The keys whose lookup in `users` fails with a server error. */
    const lookupFails: string -> bool

    /** A connection to a database with the given collections and documents. */
    constructor(collections: map<string, CollectionType>, users: seq<string>, edges: seq<EdgeRef>,
                features: map<string, seq<int>>, circles: map<string, seq<string>>,
                egoFeatures: map<string, seq<int>>, featureNames: map<string, string>,
                lookupFails: string -> bool)
      ensures this.collections == collections && this.users == users && this.edges == edges
      ensures this.features == features && this.circles == circles
      ensures this.egoFeatures == egoFeatures && this.featureNames == featureNames
      ensures this.lookupFails == lookupFails
    {
      this.collections, this.users, this.edges := collections, users, edges;
      this.features, this.circles := features, circles;
      this.egoFeatures, this.featureNames := egoFeatures, featureNames;
      this.lookupFails := lookupFails;
    }

    method CollectionExists(name: string) returns (exists_: bool)
      ensures exists_ <==> name in collections
    {
      exists_ := name in collections;
    }

    /** Creates `name` with type `t` unless it exists already. */
    method EnsureCollection(name: string, t: CollectionType)
      modifies this`collections
      ensures collections == Ensured(old(collections), name, t)
    {
      var present := CollectionExists(name);
      if !present {
        collections := collections[name := t];
      }
    }

    /** Whether `key` is a user; a server error during the lookup reads as "absent". */
    method DocumentExists(key: string) returns (found: bool)
      ensures found <==> key in users && !lookupFails(key)
    {
      if lookupFails(key) {
        return false;
      }
      found := key in users;
    }

    /** Inserts the user `key` unless the lookup finds it; false when the server rejects the insert. */
    method AddUserIfAbsent(key: string) returns (ok: bool)
      modifies this`users
      ensures AddUser(old(users), key, lookupFails) == (if ok then Some(users) else None)
      ensures !ok ==> users == old(users)
    {
      var found := DocumentExists(key);
      if !found {
        if key in users || !ValidKey(key) {
          return false;
        }
        users := users + [key];
      }
      return true;
    }

    /** One line of the edge file: a two-token line inserts its unknown endpoints, then the edge. */
    method ImportEdgeLine(line: string) returns (more: bool)
      modifies this`users, this`edges
      ensures Graph(users, edges, more) == EdgeStep(Graph(old(users), old(edges), true), line, lookupFails)
    {
      var parts := Split(line, Space);
      if |parts| == 2 {
        var fromUser, toUser := parts[0], parts[1];
        var added := AddUserIfAbsent(fromUser);
        if !added {
          return false;
        }
        added := AddUserIfAbsent(toUser);
        if !added {
          return false;
        }
        edges := edges + [EdgeRef(UserHandle(fromUser), UserHandle(toUser))];
      }
      return true;
    }

    /**
     * Creates `users` and `edges` if absent, then for each two-token line inserts each
     * endpoint not found in `users` and one edge between their handles.
     */
    method ImportEdges(lines: seq<string>) returns (ok: bool)
      modifies this`collections, this`users, this`edges
      ensures collections == Ensured(Ensured(old(collections), "users", DocumentCollection), "edges", EdgeCollection)
      ensures Graph(users, edges, ok) == ImportedEdges(Graph(old(users), old(edges), true), lines, lookupFails)
    {
      EnsureCollection("users", DocumentCollection);
      EnsureCollection("edges", EdgeCollection);
      ghost var g0 := Graph(users, edges, true);
      for i := 0 to |lines|
        invariant collections == Ensured(Ensured(old(collections), "users", DocumentCollection), "edges", EdgeCollection)
        invariant Graph(users, edges, true) == ImportedEdges(g0, lines[..i], lookupFails)
      {
        assert lines[..i + 1][..i] == lines[..i];
        var more := ImportEdgeLine(lines[i]);
        if !more {
          ImportedEdgesStops(g0, lines, i + 1, lookupFails);
          return false;
        }
      }
      assert lines[..|lines|] == lines;
      return true;
    }

    /** One line of the feature file. */
    method ImportFeatureLine(line: string) returns (more: bool)
      modifies this`features
      ensures Keyed(features, more) == KeyedStep(Keyed(old(features), true), FeatureEntry(0, line))
    {
      var parts := Split(line, Space);
      if |parts| > 1 {
        var nodeId := parts[0];
        var values := ParseIntList(parts[1..]);
        if values.None? || nodeId in features || !ValidKey(nodeId) {
          return false;
        }
        features := features[nodeId := values.value];
      }
      return true;
    }

    /** One document keyed by node per line of two or more tokens. */
    method ImportFeatures(lines: seq<string>) returns (ok: bool)
      modifies this`collections, this`features
      ensures collections == Ensured(old(collections), "features", DocumentCollection)
      ensures Keyed(features, ok) == ImportedKeyed(Keyed(old(features), true), lines, FeatureEntry)
    {
      EnsureCollection("features", DocumentCollection);
      ghost var m0 := Keyed(features, true);
      for i := 0 to |lines|
        invariant collections == Ensured(old(collections), "features", DocumentCollection)
        invariant Keyed(features, true) == ImportedKeyed(m0, lines[..i], FeatureEntry)
      {
        assert lines[..i + 1][..i] == lines[..i];
        var more := ImportFeatureLine(lines[i]);
        if !more {
          ImportedKeyedStops(m0, lines, FeatureEntry, i + 1);
          return false;
        }
      }
      assert lines[..|lines|] == lines;
      return true;
    }

    /** One line of the circle file. */
    method ImportCircleLine(line: string) returns (more: bool)
      modifies this`circles
      ensures Keyed(circles, more) == KeyedStep(Keyed(old(circles), true), CircleEntry(0, line))
    {
      var parts := Split(line, Space);
      if |parts| > 1 {
        var circleName := parts[0];
        var members := parts[1..];
        if circleName in circles || !ValidKey(circleName) {
          return false;
        }
        circles := circles[circleName := members];
      }
      return true;
    }

    /** One document keyed by circle name per line of two or more tokens. */
    method ImportCircles(lines: seq<string>) returns (ok: bool)
      modifies this`collections, this`circles
      ensures collections == Ensured(old(collections), "circles", DocumentCollection)
      ensures Keyed(circles, ok) == ImportedKeyed(Keyed(old(circles), true), lines, CircleEntry)
    {
      EnsureCollection("circles", DocumentCollection);
      ghost var m0 := Keyed(circles, true);
      for i := 0 to |lines|
        invariant collections == Ensured(old(collections), "circles", DocumentCollection)
        invariant Keyed(circles, true) == ImportedKeyed(m0, lines[..i], CircleEntry)
      {
        assert lines[..i + 1][..i] == lines[..i];
        var more := ImportCircleLine(lines[i]);
        if !more {
          ImportedKeyedStops(m0, lines, CircleEntry, i + 1);
          return false;
        }
      }
      assert lines[..|lines|] == lines;
      return true;
    }

    /** The first line's integers under the key "ego"; an empty file adds nothing. */
    method ImportEgoFeatures(lines: seq<string>) returns (ok: bool)
      modifies this`collections, this`egoFeatures
      ensures collections == Ensured(old(collections), "egoFeatures", DocumentCollection)
      ensures ok <==> !(EgoFeatures(lines).Malformed? || (EgoFeatures(lines).Parsed? && "ego" in old(egoFeatures)))
      ensures egoFeatures == if ok && EgoFeatures(lines).Parsed? then old(egoFeatures)["ego" := EgoFeatures(lines).doc] else old(egoFeatures)
    {
      EnsureCollection("egoFeatures", DocumentCollection);
      if lines != [] {
        var values := ParseIntList(Split(lines[0], Space));
        if values.None? || "ego" in egoFeatures {
          return false;
        }
        egoFeatures := egoFeatures["ego" := values.value];
      }
      return true;
    }

    /** One document per line, keyed by the line's position in decimal. */
    method ImportFeatureNames(lines: seq<string>) returns (ok: bool)
      modifies this`collections, this`featureNames
      ensures collections == Ensured(old(collections), "featureNames", DocumentCollection)
      ensures Keyed(featureNames, ok) == ImportedKeyed(Keyed(old(featureNames), true), lines, FeatureNameEntry)
    {
      EnsureCollection("featureNames", DocumentCollection);
      ghost var m0 := Keyed(featureNames, true);
      var index := 0;
      while index < |lines|
        invariant 0 <= index <= |lines|
        invariant collections == Ensured(old(collections), "featureNames", DocumentCollection)
        invariant Keyed(featureNames, true) == ImportedKeyed(m0, lines[..index], FeatureNameEntry)
      {
        assert lines[..index + 1][..index] == lines[..index];
        var key := IntToString(index);
        if key in featureNames || !ValidKey(key) {
          ImportedKeyedStops(m0, lines, FeatureNameEntry, index + 1);
          return false;
        }
        featureNames := featureNames[key := lines[index]];
        index := index + 1;
      }
      assert lines[..|lines|] == lines;
      return true;
    }
  }

  // ----- properties -----

  lemma {:induction false} ImportedEdgesStops(g: Graph, lines: seq<string>, k: nat, lookupFails: string -> bool)
    requires k <= |lines| && !ImportedEdges(g, lines[..k], lookupFails).ok
    ensures ImportedEdges(g, lines, lookupFails) == ImportedEdges(g, lines[..k], lookupFails)
    decreases |lines| - k
  {
    if k < |lines| {
      assert lines[..k + 1][..k] == lines[..k];
      ImportedEdgesStops(g, lines, k + 1, lookupFails);
    } else {
      assert lines[..k] == lines;
    }
  }

  lemma {:induction false} ImportedKeyedStops<T>(m: Keyed<T>, lines: seq<string>, parse: (nat, string) -> LineResult<(string, T)>, k: nat)
    requires k <= |lines| && !ImportedKeyed(m, lines[..k], parse).ok
    ensures ImportedKeyed(m, lines, parse) == ImportedKeyed(m, lines[..k], parse)
    decreases |lines| - k
  {
    if k < |lines| {
      assert lines[..k + 1][..k] == lines[..k];
      ImportedKeyedStops(m, lines, parse, k + 1);
    } else {
      assert lines[..k] == lines;
    }
  }

  /** Creating a collection that exists changes nothing: a repeated import creates no collection. */
  lemma EnsuredIdempotent(collections: map<string, CollectionType>, name: string, t: CollectionType, t': CollectionType)
    ensures name in Ensured(collections, name, t)
    ensures Ensured(Ensured(collections, name, t), name, t') == Ensured(collections, name, t)
    ensures name in collections ==> Ensured(collections, name, t)[name] == collections[name]
  {
  }

  lemma AddUserKeepsUnique(users: seq<string>, key: string, lookupFails: string -> bool)
    requires NoDuplicates(users)
    ensures AddUser(users, key, lookupFails).Some? ==> NoDuplicates(AddUser(users, key, lookupFails).value)
  {
  }

  /** User keys stay unique whatever the lookups do: an insert of a present key is rejected. */
  lemma {:induction false} UsersStayUnique(g: Graph, lines: seq<string>, lookupFails: string -> bool)
    requires NoDuplicates(g.users)
    ensures NoDuplicates(ImportedEdges(g, lines, lookupFails).users)
  {
    if lines != [] {
      var prev := ImportedEdges(g, lines[..|lines| - 1], lookupFails);
      UsersStayUnique(g, lines[..|lines| - 1], lookupFails);
      var line := lines[|lines| - 1];
      if prev.ok && EdgeLine(line).Parsed? {
        var e := EdgeLine(line).doc;
        AddUserKeepsUnique(prev.users, e.from, lookupFails);
        if AddUser(prev.users, e.from, lookupFails).Some? {
          AddUserKeepsUnique(AddUser(prev.users, e.from, lookupFails).value, e.to, lookupFails);
        }
      }
    }
  }

  /** Every endpoint of the edges is a key the server accepts. */
  predicate LegalEndpoints(es: seq<Edge>) {
    forall e | e in es :: ValidKey(e.from) && ValidKey(e.to)
  }

  lemma LegalEndpointsSnoc(es: seq<Edge>, e: Edge)
    ensures LegalEndpoints(es + [e]) <==> LegalEndpoints(es) && ValidKey(e.from) && ValidKey(e.to)
  {
    assert e in es + [e];
    forall x | x in es ensures x in es + [x] && x in es + [e] { }
  }

  /** The server holds only legal keys, and the import keeps it so. */
  lemma {:induction false} UsersStayLegal(g: Graph, lines: seq<string>, lookupFails: string -> bool)
    requires forall u | u in g.users :: ValidKey(u)
    ensures forall u | u in ImportedEdges(g, lines, lookupFails).users :: ValidKey(u)
  {
    if lines != [] {
      UsersStayLegal(g, lines[..|lines| - 1], lookupFails);
    }
  }

  /**
   * When no lookup fails, the import runs to the end exactly when every endpoint of every
   * two-token line is a legal key. It then has made the users the old users plus every
   * such endpoint, and added one edge per such line, in order.
   */
  lemma {:induction false} EdgesWithoutLookupFailures(g: Graph, lines: seq<string>, lookupFails: string -> bool)
    requires g.ok && (forall k :: !lookupFails(k)) && (forall u | u in g.users :: ValidKey(u))
    ensures ImportedEdges(g, lines, lookupFails).ok <==> LegalEndpoints(Load(lines, EdgeLine).docs)
    ensures ImportedEdges(g, lines, lookupFails).ok ==>
      Elements(ImportedEdges(g, lines, lookupFails).users) == Elements(g.users) + Endpoints(Load(lines, EdgeLine).docs)
      && ImportedEdges(g, lines, lookupFails).edges == g.edges + Refs(Load(lines, EdgeLine).docs)
  {
    if lines != [] {
      var n := |lines| - 1;
      var p := lines[..n];
      EdgesWithoutLookupFailures(g, p, lookupFails);
      UsersStayLegal(g, p, lookupFails);
      EdgeDocsSnoc(lines);
      EdgesStepWithoutLookupFailures(g, ImportedEdges(g, p, lookupFails), Load(p, EdgeLine).docs, lines[n], lookupFails);
    }
  }

  /** The edge documents of a file, one line at a time (an edge line never throws). */
  lemma EdgeDocsSnoc(lines: seq<string>)
    requires lines != []
    ensures Load(lines, EdgeLine).docs
      == Load(lines[..|lines| - 1], EdgeLine).docs
         + (if EdgeLine(lines[|lines| - 1]).Parsed? then [EdgeLine(lines[|lines| - 1]).doc] else [])
  {
    var n := |lines| - 1;
    LoadSnoc(lines, EdgeLine, n);
    assert lines[..n + 1] == lines;
    assert Load(lines[..n], EdgeLine).failedAt.None? by { LoadFailure(lines[..n], EdgeLine); }
  }

  /** The inductive step of `EdgesWithoutLookupFailures`: one more line after `prev`. */
  lemma EdgesStepWithoutLookupFailures(g: Graph, prev: Graph, docs: seq<Edge>, line: string, lookupFails: string -> bool)
    requires g.ok && (forall k :: !lookupFails(k)) && (forall u | u in prev.users :: ValidKey(u))
    requires prev.ok <==> LegalEndpoints(docs)
    requires prev.ok ==> Elements(prev.users) == Elements(g.users) + Endpoints(docs) && prev.edges == g.edges + Refs(docs)
    ensures var docs' := docs + (if EdgeLine(line).Parsed? then [EdgeLine(line).doc] else []);
      (EdgeStep(prev, line, lookupFails).ok <==> LegalEndpoints(docs'))
      && (EdgeStep(prev, line, lookupFails).ok ==>
            Elements(EdgeStep(prev, line, lookupFails).users) == Elements(g.users) + Endpoints(docs')
            && EdgeStep(prev, line, lookupFails).edges == g.edges + Refs(docs'))
  {
    if EdgeLine(line).Parsed? {
      var e := EdgeLine(line).doc;
      assert docs + [e] == docs + (if EdgeLine(line).Parsed? then [EdgeLine(line).doc] else []);
      LegalEndpointsSnoc(docs, e);
      if prev.ok {
        EdgeStepWithoutLookupFailures(prev, line, lookupFails);
        EndpointsSnoc(docs, e);
        assert Refs(docs + [e]) == Refs(docs) + [EdgeRef(UserHandle(e.from), UserHandle(e.to))];
      }
    } else {
      assert docs + [] == docs;
    }
  }

  /** One edge line when no lookup fails. */
  lemma EdgeStepWithoutLookupFailures(g: Graph, line: string, lookupFails: string -> bool)
    requires g.ok && (forall k :: !lookupFails(k)) && (forall u | u in g.users :: ValidKey(u))
    ensures EdgeStep(g, line, lookupFails).ok
        <==> (EdgeLine(line).Parsed? ==> ValidKey(EdgeLine(line).doc.from) && ValidKey(EdgeLine(line).doc.to))
    ensures EdgeStep(g, line, lookupFails).ok ==>
      Elements(EdgeStep(g, line, lookupFails).users)
        == Elements(g.users) + (if EdgeLine(line).Parsed? then {EdgeLine(line).doc.from, EdgeLine(line).doc.to} else {})
      && EdgeStep(g, line, lookupFails).edges
        == g.edges + (if EdgeLine(line).Parsed? then [EdgeRef(UserHandle(EdgeLine(line).doc.from), UserHandle(EdgeLine(line).doc.to))] else [])
  {
    if EdgeLine(line).Parsed? {
      var e := EdgeLine(line).doc;
      if ValidKey(e.from) {
        var u1 := AddUser(g.users, e.from, lookupFails).value;
        assert Elements(u1) == Elements(g.users) + {e.from};
        if ValidKey(e.to) {
          assert Elements(AddUser(u1, e.to, lookupFails).value) == Elements(u1) + {e.to};
        } else {
          assert e.to !in Elements(u1);
        }
      }
    }
  }

  /** A self-loop line `a a` inserts `a` once. */
  lemma SelfLoopAddsOnce(g: Graph, a: string, lookupFails: string -> bool)
    requires g.ok && Space !in a && ValidKey(a) && a !in g.users && !lookupFails(a)
    ensures EdgeStep(g, a + [Space] + a, lookupFails) == Graph(g.users + [a], g.edges + [EdgeRef(UserHandle(a), UserHandle(a))], true)
  {
    EdgeLineRoundTrip(Edge(a, a));
  }

  /**
   * A line with one trailing space, `a `, is an edge to the empty key; the server rejects
   * that user, which ends the import.
   */
  lemma TrailingSpaceEndsImport(g: Graph, a: string, lookupFails: string -> bool)
    requires g.ok && Space !in a && "" !in g.users
    ensures !EdgeStep(g, a + [Space], lookupFails).ok
  {
    EdgeLineRoundTrip(Edge(a, ""));
    assert a + [Space] + "" == a + [Space];
  }

  /** A server error while looking up a user that exists makes the importer insert it again, which ends the import. */
  lemma FailedLookupEndsImport(g: Graph, a: string, b: string, lookupFails: string -> bool)
    requires g.ok && Space !in a && Space !in b && a in g.users && lookupFails(a)
    ensures !EdgeStep(g, a + [Space] + b, lookupFails).ok
  {
    EdgeLineRoundTrip(Edge(a, b));
  }

  // ----- keyed imports -----

  /** A keyed import only adds documents: every earlier key keeps its document. */
  lemma {:induction false} KeyedGrows<T>(m: Keyed<T>, lines: seq<string>, parse: (nat, string) -> LineResult<(string, T)>)
    ensures forall key :: key in m.docs ==>
      (key in ImportedKeyed(m, lines, parse).docs && ImportedKeyed(m, lines, parse).docs[key] == m.docs[key])
  {
    if lines != [] {
      KeyedGrows(m, lines[..|lines| - 1], parse);
    }
  }

  /**
   * An import that runs to the end met no malformed line and no illegal key, and stored
   * each parsed line's document under its key.
   */
  lemma {:induction false} KeyedComplete<T>(m: Keyed<T>, lines: seq<string>, parse: (nat, string) -> LineResult<(string, T)>)
    requires ImportedKeyed(m, lines, parse).ok
    ensures forall k :: 0 <= k < |lines| ==> !parse(k, lines[k]).Malformed?
    ensures forall k :: 0 <= k < |lines| && parse(k, lines[k]).Parsed? ==>
      var kv := parse(k, lines[k]).doc;
      ValidKey(kv.0) && kv.0 in ImportedKeyed(m, lines, parse).docs && ImportedKeyed(m, lines, parse).docs[kv.0] == kv.1
  {
    if lines != [] {
      var n := |lines| - 1;
      var p := lines[..n];
      var prev := ImportedKeyed(m, p, parse);
      assert prev.ok;
      KeyedComplete(m, p, parse);
      KeyedGrows(prev, [lines[n]], parse);
      assert ImportedKeyed(prev, [lines[n]], parse) == KeyedStep(prev, parse(0, lines[n]));
      forall k | 0 <= k < n ensures lines[k] == p[k] { }
    }
  }

  /**
   * Importing a file a second time into the collection the first import filled fails as
   * soon as it reaches a document: its key is taken.
   */
  lemma ReimportFails<T>(m: Keyed<T>, lines: seq<string>, parse: (nat, string) -> LineResult<(string, T)>, k: nat)
    requires ImportedKeyed(m, lines, parse).ok && k < |lines| && parse(k, lines[k]).Parsed?
    ensures !ImportedKeyed(Keyed(ImportedKeyed(m, lines, parse).docs, true), lines, parse).ok
  {
    var r := ImportedKeyed(m, lines, parse);
    KeyedComplete(m, lines, parse);
    KeyedFailsOnRejectedKey(Keyed(r.docs, true), lines, parse, k);
  }

  /**
   * An import in which some line parses to a key already taken, or to an illegal key such
   * as the empty one of a feature line ` 5 1`, does not run to the end.
   */
  lemma {:induction false} KeyedFailsOnRejectedKey<T>(m: Keyed<T>, lines: seq<string>, parse: (nat, string) -> LineResult<(string, T)>, k: nat)
    requires k < |lines| && parse(k, lines[k]).Parsed?
    requires parse(k, lines[k]).doc.0 in m.docs || !ValidKey(parse(k, lines[k]).doc.0)
    ensures !ImportedKeyed(m, lines, parse).ok
  {
    var n := |lines| - 1;
    var p := lines[..n];
    var prev := ImportedKeyed(m, p, parse);
    if k < n {
      assert p[k] == lines[k];
      KeyedFailsOnRejectedKey(m, p, parse, k);
    } else {
      KeyedGrows(m, p, parse);
    }
  }

  /** A feature line with a leading space, such as ` 5 1`, is keyed by the empty key, so it ends the import. */
  lemma LeadingSpaceFeatureEndsImport(m: Keyed<seq<int>>, fs: seq<int>)
    requires |fs| >= 1 && forall k :: 0 <= k < |fs| ==> IsInt32(fs[k])
    ensures !ImportedKeyed(m, [[Space] + JoinWith(Render(fs), [Space])], FeatureEntry).ok
  {
    var line := [Space] + JoinWith(Render(fs), [Space]);
    FeatureLineRoundTrip(Feature("", fs));
    assert "" + [Space] + JoinWith(Render(fs), [Space]) == line;
    KeyedFailsOnRejectedKey(m, [line], FeatureEntry, 0);
  }

  /**
   * Feature names go in under the keys "0", "1", ...: into a collection holding none of
   * those keys, every line is stored under its position.
   */
  lemma {:induction false} FeatureNamesStored(m: Keyed<string>, lines: seq<string>)
    requires m.ok && forall k :: 0 <= k < |lines| ==> IntToString(k) !in m.docs
    ensures ImportedKeyed(m, lines, FeatureNameEntry).ok
    ensures forall k :: 0 <= k < |lines| ==>
      IntToString(k) in ImportedKeyed(m, lines, FeatureNameEntry).docs
      && ImportedKeyed(m, lines, FeatureNameEntry).docs[IntToString(k)] == lines[k]
  {
    if lines != [] {
      var n := |lines| - 1;
      var p := lines[..n];
      FeatureNamesStored(m, p);
      var prev := ImportedKeyed(m, p, FeatureNameEntry);
      assert IntToString(n) !in prev.docs by {
        if IntToString(n) in prev.docs {
          var key := IntToString(n);
          assert key !in m.docs;
          KeyedOnlyParsedKeys(m, p, FeatureNameEntry, key);
          var k :| 0 <= k < |p| && FeatureNameEntry(k, p[k]).doc.0 == key;
          IntToStringInjective(k, n);
        }
      }
      forall k | 0 <= k < n ensures lines[k] == p[k] { }
    }
  }

  /** Every key a keyed import adds comes from one of its lines. */
  lemma {:induction false} KeyedOnlyParsedKeys<T>(m: Keyed<T>, lines: seq<string>, parse: (nat, string) -> LineResult<(string, T)>, key: string)
    requires key in ImportedKeyed(m, lines, parse).docs && key !in m.docs
    ensures exists k :: 0 <= k < |lines| && parse(k, lines[k]).Parsed? && parse(k, lines[k]).doc.0 == key
  {
    var n := |lines| - 1;
    var p := lines[..n];
    if key in ImportedKeyed(m, p, parse).docs {
      KeyedOnlyParsedKeys(m, p, parse, key);
      var k :| 0 <= k < |p| && parse(k, p[k]).Parsed? && parse(k, p[k]).doc.0 == key;
      assert p[k] == lines[k];
    } else {
      assert parse(n, lines[n]).Parsed? && parse(n, lines[n]).doc.0 == key;
    }
  }
}
