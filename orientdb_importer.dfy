/**
 * The OrientDB importer. Classes play the part of collections and are created on first
 * use. A saved document carries its key in a `_key` field that nothing constrains, so a
 * save is never rejected; the only guard against a second user with the same key is the
 * lookup before it, and a lookup that throws, for any reason, reads as "absent".
 */
module OrientDBImport {
  import opened Wrappers
  import opened Text
  import opened DatasetFiles

  datatype ClassType = VertexClass | EdgeClass | DocumentClass

  /** A saved feature name: `_key` is the line's position in decimal. */
  datatype KeyedName = KeyedName(key: string, name: string)

  /** The classes after creating `name` with type `t` unless it already exists. */
  function Ensured(classes: map<string, ClassType>, name: string, t: ClassType): map<string, ClassType> {
    if name in classes then classes else classes[name := t]
  }

  /** Looks up `key` and saves a user document for it when the lookup says it is absent. */
  function AddUser(users: seq<string>, key: string, loadFails: string -> bool): seq<string> {
    if key in users && !loadFails(key) then users else users + [key]
  }

  /** The user keys after one line of the edge file. */
  function UsersStep(users: seq<string>, line: string, loadFails: string -> bool): seq<string> {
    match EdgeLine(line)
    case Parsed(e) => AddUser(AddUser(users, e.from, loadFails), e.to, loadFails)
    case _ => users
  }

  /** The user keys after the edge file, line by line. */
  function ImportedUsers(users: seq<string>, lines: seq<string>, loadFails: string -> bool): seq<string> {
    if lines == [] then users
    else UsersStep(ImportedUsers(users, lines[..|lines| - 1], loadFails), lines[|lines| - 1], loadFails)
  }

  /** The edge documents one line of the edge file adds. */
  function LineRefs(line: string): seq<EdgeRef> {
    match EdgeLine(line)
    case Parsed(e) => Refs([e])
    case _ => []
  }

  /** The feature-name documents of a file: every line, keyed by its position. */
  function KeyedNamesOf(lines: seq<string>): (names: seq<KeyedName>)
    ensures |names| == |lines|
  {
    seq(|lines|, k requires 0 <= k < |lines| => KeyedName(IntToString(k), lines[k]))
  }

  class OrientDBImporter {
    var classes: map<string, ClassType>
    /** The `_key` of each saved `users` document, in save order. */
    var users: seq<string>
    var edges: seq<EdgeRef>
    var features: seq<Feature>
    var circles: seq<Circle>
    var egoFeatures: seq<Feature>
    var featureNames: seq<KeyedName>
    /** The keys whose load from `users` throws although the document may be there. */
    const loadFails: string -> bool

    /** A connection, from the pool, to a database with the given classes and documents. */
    constructor(classes: map<string, ClassType>, users: seq<string>, edges: seq<EdgeRef>,
                features: seq<Feature>, circles: seq<Circle>, egoFeatures: seq<Feature>,
                featureNames: seq<KeyedName>, loadFails: string -> bool)
      ensures this.classes == classes && this.users == users && this.edges == edges
      ensures this.features == features && this.circles == circles
      ensures this.egoFeatures == egoFeatures && this.featureNames == featureNames
      ensures this.loadFails == loadFails
    {
      this.classes, this.users, this.edges := classes, users, edges;
      this.features, this.circles := features, circles;
      this.egoFeatures, this.featureNames := egoFeatures, featureNames;
      this.loadFails := loadFails;
    }

    method CollectionExists(name: string) returns (exists_: bool)
      ensures exists_ <==> name in classes
    {
      exists_ := name in classes;
    }

    /** Creates the class `name` with type `t` unless it exists already. */
    method EnsureClass(name: string, t: ClassType)
      modifies this`classes
      ensures classes == Ensured(old(classes), name, t)
    {
      var present := CollectionExists(name);
      if !present {
        classes := classes[name := t];
      }
    }

    /** Whether a user with `key` loads; any exception during the load reads as "absent". */
    method DocumentExists(key: string) returns (found: bool)
      ensures found <==> key in users && !loadFails(key)
    {
      if loadFails(key) {
        return false;
      }
      found := key in users;
    }

    /** Saves a user document for `key` unless the lookup finds one. */
    method AddUserIfAbsent(key: string)
      modifies this`users
      ensures users == AddUser(old(users), key, loadFails)
    {
      var found := DocumentExists(key);
      if !found {
        users := users + [key];
      }
    }

    /** One line of the edge file: a two-token line saves its endpoints not found, then the edge. */
    method ImportEdgeLine(line: string)
      modifies this`users, this`edges
      ensures users == UsersStep(old(users), line, loadFails)
      ensures edges == old(edges) + LineRefs(line)
    {
      var parts := Split(line, Space);
      if |parts| == 2 {
        var fromUser, toUser := parts[0], parts[1];
        AddUserIfAbsent(fromUser);
        AddUserIfAbsent(toUser);
        edges := edges + [EdgeRef(UserHandle(fromUser), UserHandle(toUser))];
      }
    }

    /**
     * Creates `users` and `edges` if absent, then for each two-token line saves each
     * endpoint not found and one edge between their handles.
     */
    method ImportEdges(lines: seq<string>)
      modifies this`classes, this`users, this`edges
      ensures classes == Ensured(Ensured(old(classes), "users", VertexClass), "edges", EdgeClass)
      ensures users == ImportedUsers(old(users), lines, loadFails)
      ensures edges == old(edges) + Refs(Load(lines, EdgeLine).docs)
    {
      EnsureClass("users", VertexClass);
      EnsureClass("edges", EdgeClass);
      ghost var u0, e0 := users, edges;
      for i := 0 to |lines|
        invariant classes == Ensured(Ensured(old(classes), "users", VertexClass), "edges", EdgeClass)
        invariant users == ImportedUsers(u0, lines[..i], loadFails)
        invariant edges == e0 + Refs(Load(lines[..i], EdgeLine).docs)
        invariant Load(lines[..i], EdgeLine).failedAt.None?
      {
        assert lines[..i + 1][..i] == lines[..i];
        LoadSnoc(lines, EdgeLine, i);
        RefsSnoc(Load(lines[..i], EdgeLine).docs, lines[i]);
        ImportEdgeLine(lines[i]);
      }
      assert lines[..|lines|] == lines;
    }

    /** One document keyed by node per line of two or more tokens; a token that is not an integer ends the import. */
    method ImportFeatures(lines: seq<string>) returns (ok: bool)
      modifies this`classes, this`features
      ensures classes == Ensured(old(classes), "features", DocumentClass)
      ensures features == old(features) + Load(lines, FeatureLine).docs
      ensures ok <==> Load(lines, FeatureLine).failedAt.None?
    {
      EnsureClass("features", DocumentClass);
      ghost var f0 := features;
      for i := 0 to |lines|
        invariant classes == Ensured(old(classes), "features", DocumentClass)
        invariant features == f0 + Load(lines[..i], FeatureLine).docs
        invariant Load(lines[..i], FeatureLine).failedAt.None?
      {
        var parts := Split(lines[i], Space);
        LoadSnoc(lines, FeatureLine, i);
        if |parts| > 1 {
          var nodeId := parts[0];
          var values := ParseIntList(parts[1..]);
          if values.None? {
            LoadStops(lines, FeatureLine, i + 1);
            return false;
          }
          features := features + [Feature(nodeId, values.value)];
        }
      }
      assert lines[..|lines|] == lines;
      return true;
    }

    /** One document keyed by circle name per line of two or more tokens. */
    method ImportCircles(lines: seq<string>)
      modifies this`classes, this`circles
      ensures classes == Ensured(old(classes), "circles", DocumentClass)
      ensures circles == old(circles) + Load(lines, CircleLine).docs
    {
      EnsureClass("circles", DocumentClass);
      ghost var c0 := circles;
      for i := 0 to |lines|
        invariant classes == Ensured(old(classes), "circles", DocumentClass)
        invariant circles == c0 + Load(lines[..i], CircleLine).docs
        invariant Load(lines[..i], CircleLine).failedAt.None?
      {
        var parts := Split(lines[i], Space);
        if |parts| > 1 {
          var circleName := parts[0];
          var members := parts[1..];
          circles := circles + [Circle(circleName, members)];
        }
        LoadSnoc(lines, CircleLine, i);
      }
      assert lines[..|lines|] == lines;
    }

    /** The first line's integers under the key "ego"; an empty file adds nothing. */
    method ImportEgoFeatures(lines: seq<string>) returns (ok: bool)
      modifies this`classes, this`egoFeatures
      ensures classes == Ensured(old(classes), "egoFeatures", DocumentClass)
      ensures egoFeatures == old(egoFeatures) + EgoDocs(lines)
      ensures ok <==> !EgoFeatures(lines).Malformed?
    {
      EnsureClass("egoFeatures", DocumentClass);
      if lines != [] {
        var values := ParseIntList(Split(lines[0], Space));
        if values.None? {
          return false;
        }
        egoFeatures := egoFeatures + [Feature("ego", values.value)];
      }
      return true;
    }

    /** One document per line, keyed by the line's position in decimal. */
    method ImportFeatureNames(lines: seq<string>)
      modifies this`classes, this`featureNames
      ensures classes == Ensured(old(classes), "featureNames", DocumentClass)
      ensures featureNames == old(featureNames) + KeyedNamesOf(lines)
    {
      EnsureClass("featureNames", DocumentClass);
      ghost var n0 := featureNames;
      var index := 0;
      while index < |lines|
        invariant 0 <= index <= |lines|
        invariant classes == Ensured(old(classes), "featureNames", DocumentClass)
        invariant featureNames == n0 + KeyedNamesOf(lines[..index])
      {
        featureNames := featureNames + [KeyedName(IntToString(index), lines[index])];
        index := index + 1;
        assert KeyedNamesOf(lines[..index]) == KeyedNamesOf(lines[..index - 1]) + [KeyedName(IntToString(index - 1), lines[index - 1])];
      }
      assert lines[..|lines|] == lines;
    }
  }

  // ----- properties -----

  lemma RefsSnoc(docs: seq<Edge>, line: string)
    ensures Refs(Step(Loaded(docs, None), EdgeLine(line), 0).docs) == Refs(docs) + LineRefs(line)
  {
    if EdgeLine(line).Parsed? {
      assert Refs(docs + [EdgeLine(line).doc]) == Refs(docs) + Refs([EdgeLine(line).doc]);
    }
  }

  /**
   * When no load fails, user keys stay unique and the users become the old users plus
   * every endpoint of every two-token line.
   */
  lemma {:induction false} UsersWithoutLoadFailures(users: seq<string>, lines: seq<string>, loadFails: string -> bool)
    requires NoDuplicates(users) && forall k :: !loadFails(k)
    ensures NoDuplicates(ImportedUsers(users, lines, loadFails))
    ensures Elements(ImportedUsers(users, lines, loadFails)) == Elements(users) + Endpoints(Load(lines, EdgeLine).docs)
  {
    if lines != [] {
      var n := |lines| - 1;
      var p := lines[..n];
      UsersWithoutLoadFailures(users, p, loadFails);
      LoadSnoc(lines, EdgeLine, n);
      assert lines[..n + 1] == lines;
      assert Load(p, EdgeLine).failedAt.None? by { LoadFailure(p, EdgeLine); }
      if EdgeLine(lines[n]).Parsed? {
        var e := EdgeLine(lines[n]).doc;
        var prev := ImportedUsers(users, p, loadFails);
        AddUserWithoutLoadFailure(prev, e.from, loadFails);
        AddUserWithoutLoadFailure(AddUser(prev, e.from, loadFails), e.to, loadFails);
        EndpointsSnoc(Load(p, EdgeLine).docs, e);
      }
    }
  }

  lemma AddUserWithoutLoadFailure(users: seq<string>, key: string, loadFails: string -> bool)
    requires NoDuplicates(users) && !loadFails(key)
    ensures NoDuplicates(AddUser(users, key, loadFails))
    ensures Elements(AddUser(users, key, loadFails)) == Elements(users) + {key}
  {
  }

  /** A load that throws for a user who is there saves that user a second time. */
  lemma FailedLoadDuplicatesUser(loadFails: string -> bool)
    requires loadFails("a")
    ensures ImportedUsers(["a"], ["a b"], loadFails) == ["a", "a", "b"]
    ensures !NoDuplicates(ImportedUsers(["a"], ["a b"], loadFails))
  {
    EdgeLineRoundTrip(Edge("a", "b"));
    assert "a" + [Space] + "b" == "a b";
    assert ["a b"][..0] == [];
  }
}
