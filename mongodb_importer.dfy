/**
 * The MongoDB importer: each dataset file is read line by line into its own collection,
 * one document per parsed line. MongoDB gives every document a fresh `_id`, so nothing
 * is ever rejected and a repeated import adds the documents again.
 */
module MongoDBImport {
  import opened Wrappers
  import opened Text
  import opened DatasetFiles

  datatype FeatureName = FeatureName(index: int, name: string)

  /** The feature-name documents of a file: every line, with its position counted from 0. */
  function FeatureNamesOf(lines: seq<string>): (names: seq<FeatureName>)
    ensures |names| == |lines|
  {
    seq(|lines|, k requires 0 <= k < |lines| => FeatureName(k, lines[k]))
  }

  class MongoDBImporter {
    /** The collections `edges`, `features`, `circles`, `egoFeatures` and `featureNames`, in insertion order. */
    var edges: seq<Edge>
    var features: seq<Feature>
    var circles: seq<Circle>
    var egoFeatures: seq<Feature>
    var featureNames: seq<FeatureName>

    /** A connection to a database whose collections hold the given documents. */
    constructor(edges: seq<Edge>, features: seq<Feature>, circles: seq<Circle>,
                egoFeatures: seq<Feature>, featureNames: seq<FeatureName>)
      ensures this.edges == edges && this.features == features && this.circles == circles
      ensures this.egoFeatures == egoFeatures && this.featureNames == featureNames
    {
      this.edges, this.features, this.circles := edges, features, circles;
      this.egoFeatures, this.featureNames := egoFeatures, featureNames;
    }

    /** One `{from, to}` document per two-token line, in file order, duplicates included. */
    method ImportEdges(lines: seq<string>)
      modifies this`edges
      ensures edges == old(edges) + Load(lines, EdgeLine).docs
    {
      for i := 0 to |lines|
        invariant edges == old(edges) + Load(lines[..i], EdgeLine).docs
        invariant Load(lines[..i], EdgeLine).failedAt.None?
      {
        var parts := Split(lines[i], Space);
        if |parts| == 2 {
          edges := edges + [Edge(parts[0], parts[1])];
        }
        LoadSnoc(lines, EdgeLine, i);
      }
      assert lines[..|lines|] == lines;
    }

    /**
     * One `{nodeId, features}` document per line of two or more tokens; a token that is
     * not an integer ends the import, the documents of the lines before it staying inserted.
     */
    method ImportFeatures(lines: seq<string>) returns (ok: bool)
      modifies this`features
      ensures features == old(features) + Load(lines, FeatureLine).docs
      ensures ok <==> Load(lines, FeatureLine).failedAt.None?
    {
      for i := 0 to |lines|
        invariant features == old(features) + Load(lines[..i], FeatureLine).docs
        invariant Load(lines[..i], FeatureLine).failedAt.None?
      {
        var parts := Split(lines[i], Space);
        LoadSnoc(lines, FeatureLine, i);
        if |parts| > 1 {
          var nodeId := parts[0];
          var values := ParseIntList(parts[1..]);
          if values.None? {
            LoadStops(lines, FeatureLine, i + 1);
            return false;
          }
          features := features + [Feature(nodeId, values.value)];
        }
      }
      assert lines[..|lines|] == lines;
      return true;
    }

    /** One `{circleName, members}` document per line of two or more tokens, members kept as text. */
    method ImportCircles(lines: seq<string>)
      modifies this`circles
      ensures circles == old(circles) + Load(lines, CircleLine).docs
    {
      for i := 0 to |lines|
        invariant circles == old(circles) + Load(lines[..i], CircleLine).docs
        invariant Load(lines[..i], CircleLine).failedAt.None?
      {
        var parts := Split(lines[i], Space);
        if |parts| > 1 {
          var circleName := parts[0];
          var members := parts[1..];
          circles := circles + [Circle(circleName, members)];
        }
        LoadSnoc(lines, CircleLine, i);
      }
      assert lines[..|lines|] == lines;
    }

    /** The first line only, every token an integer, stored under the node "ego"; an empty file adds nothing. */
    method ImportEgoFeatures(lines: seq<string>) returns (ok: bool)
      modifies this`egoFeatures
      ensures egoFeatures == old(egoFeatures) + EgoDocs(lines)
      ensures ok <==> !EgoFeatures(lines).Malformed?
    {
      if lines != [] {
        var values := ParseIntList(Split(lines[0], Space));
        if values.None? {
          return false;
        }
        egoFeatures := egoFeatures + [Feature("ego", values.value)];
      }
      return true;
    }

    /** One `{index, name}` document per line, empty lines included, `index` counting from 0. */
    method ImportFeatureNames(lines: seq<string>)
      modifies this`featureNames
      ensures featureNames == old(featureNames) + FeatureNamesOf(lines)
    {
      var index := 0;
      while index < |lines|
        invariant 0 <= index <= |lines|
        invariant featureNames == old(featureNames) + FeatureNamesOf(lines[..index])
      {
        featureNames := featureNames + [FeatureName(index, lines[index])];
        index := index + 1;
        assert FeatureNamesOf(lines[..index]) == FeatureNamesOf(lines[..index - 1]) + [FeatureName(index - 1, lines[index - 1])];
      }
      assert lines[..|lines|] == lines;
    }
  }
}
