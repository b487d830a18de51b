/**
 * The random subset of the split tool: all lines are read, shuffled, and the first
 * `maxLines` of the shuffle are written. The shuffle (`OrderBy` on draws of a seeded
 * random generator) is given as the permutation of positions it produces.
 */
module DatasetSubset {
  /** `perm` lists each position below `n` exactly once: `perm[k]` is the line placed k-th. */
  predicate IsPermutation(perm: seq<nat>, n: nat) {
    |perm| == n
    && (forall k :: 0 <= k < n ==> perm[k] < n)
    && (forall k, k' :: 0 <= k < k' < n ==> perm[k] != perm[k'])
    && (forall v :: 0 <= v < n ==> v in perm)
  }

  /** The lines in the order the shuffle puts them. */
  function Shuffled(lines: seq<string>, perm: seq<nat>): (s: seq<string>)
    requires IsPermutation(perm, |lines|)
    ensures |s| == |lines|
  {
    seq(|lines|, k requires 0 <= k < |lines| => lines[perm[k]])
  }

  /** How many lines are written: all of them when the file is no longer than `maxLines`, none for a negative `maxLines`. */
  function SubsetSize(count: nat, maxLines: int): nat {
    if count <= maxLines then count else if maxLines < 0 then 0 else maxLines
  }

  /** The lines written: the first `SubsetSize` lines of the shuffle. */
  function Subset(lines: seq<string>, maxLines: int, perm: seq<nat>): seq<string>
    requires IsPermutation(perm, |lines|)
  {
    Shuffled(lines, perm)[..SubsetSize(|lines|, maxLines)]
  }

  /** `GenerateRandomSubset`: reads every line of `input`, then writes the first `maxLines` of the shuffle. */
  method GenerateRandomSubset(input: seq<string>, maxLines: int, perm: seq<nat>) returns (output: seq<string>)
    requires IsPermutation(perm, |input|)
    ensures output == Subset(input, maxLines, perm)
  {
    var lines := [];
    for i := 0 to |input|
      invariant lines == input[..i]
    {
      lines := lines + [input[i]];
    }
    assert lines == input;
    var n := maxLines;
    if |lines| <= n {
      n := |lines|;
    }
    var shuffledLines := seq(|lines|, k requires 0 <= k < |lines| => lines[perm[k]]);
    output := [];
    var i := 0;
    while i < n
      invariant 0 <= i && (i <= n || i == 0)
      invariant i <= |lines|
      invariant output == shuffledLines[..i]
    {
      output := output + [shuffledLines[i]];
      i := i + 1;
      assert shuffledLines[..i] == shuffledLines[..i - 1] + [shuffledLines[i - 1]];
    }
    assert i == SubsetSize(|input|, maxLines);
  }

  /** The number of lines written is min(|lines|, maxLines), and 0 when `maxLines` is negative. */
  lemma SubsetLength(lines: seq<string>, maxLines: int, perm: seq<nat>)
    requires IsPermutation(perm, |lines|)
    ensures maxLines < 0 ==> |Subset(lines, maxLines, perm)| == 0
    ensures 0 <= maxLines ==> |Subset(lines, maxLines, perm)| == (if |lines| < maxLines then |lines| else maxLines)
  {
  }

  /** A shuffle loses and invents no line: it is a permutation of the input. */
  lemma {:induction false} ShuffledIsPermutation(lines: seq<string>, perm: seq<nat>)
    requires IsPermutation(perm, |lines|)
    ensures multiset(Shuffled(lines, perm)) == multiset(lines)
  {
    var n := |lines|;
    if n > 0 {
      var j := PlaceOfLast(perm, n);
      DropLast(perm, n, j);
      ShuffledIsPermutation(lines[..n - 1], Without(perm, j));
      ShuffledDropLast(lines, perm, j);
      assert lines == lines[..n - 1] + [lines[n - 1]];
    }
  }

  /** `s` without its element at `j`. */
  function Without(s: seq<nat>, j: nat): (r: seq<nat>)
    requires j < |s|
    ensures |r| == |s| - 1
    ensures forall k :: 0 <= k < |r| ==> r[k] == s[if k < j then k else k + 1]
  {
    s[..j] + s[j + 1..]
  }

  /** The place the shuffle gives to the last line. */
  lemma PlaceOfLast(perm: seq<nat>, n: nat) returns (j: nat)
    requires IsPermutation(perm, n) && n > 0
    ensures j < n && perm[j] == n - 1
  {
    assert n - 1 in perm;
    j :| 0 <= j < n && perm[j] == n - 1;
  }

  /** Removing the place of the last position from a permutation leaves a permutation of the others. */
  lemma DropLast(perm: seq<nat>, n: nat, j: nat)
    requires IsPermutation(perm, n) && j < n && perm[j] == n - 1
    ensures IsPermutation(Without(perm, j), n - 1)
  {
    var perm' := Without(perm, j);
    forall k | 0 <= k < n - 1 ensures perm'[k] < n - 1 {
      var k0 := if k < j then k else k + 1;
      assert perm'[k] == perm[k0] && k0 != j;
    }
    forall k, k' | 0 <= k < k' < n - 1 ensures perm'[k] != perm'[k'] {
      var k0 := if k < j then k else k + 1;
      var k1 := if k' < j then k' else k' + 1;
      assert perm'[k] == perm[k0] && perm'[k'] == perm[k1] && k0 < k1;
    }
    forall v | 0 <= v < n - 1 ensures v in perm' {
      assert v in perm;
      var k0 :| 0 <= k0 < |perm| && perm[k0] == v;
      assert k0 != j;
      if k0 < j { assert perm'[k0] == v; } else { assert perm'[k0 - 1] == v; }
    }
  }

  /** The shuffle holds the last line once more than the shuffle of the others by the shortened permutation. */
  lemma ShuffledDropLast(lines: seq<string>, perm: seq<nat>, j: nat)
    requires IsPermutation(perm, |lines|) && j < |lines| && perm[j] == |lines| - 1
    requires IsPermutation(Without(perm, j), |lines| - 1)
    ensures multiset(Shuffled(lines, perm))
         == multiset(Shuffled(lines[..|lines| - 1], Without(perm, j))) + multiset{lines[|lines| - 1]}
  {
    var n := |lines|;
    var t, t' := Shuffled(lines, perm), Shuffled(lines[..n - 1], Without(perm, j));
    assert t' == t[..j] + t[j + 1..];
    assert t == t[..j] + [t[j]] + t[j + 1..];
  }

  /** Every line written is an input line, never more often than the input holds it. */
  lemma SubsetOfInput(lines: seq<string>, maxLines: int, perm: seq<nat>)
    requires IsPermutation(perm, |lines|)
    ensures multiset(Subset(lines, maxLines, perm)) <= multiset(lines)
  {
    var t := Shuffled(lines, perm);
    var m := SubsetSize(|lines|, maxLines);
    assert t == t[..m] + t[m..];
    ShuffledIsPermutation(lines, perm);
  }

  /** A file no longer than `maxLines` is written whole, in shuffled order. */
  lemma ShortFileWhole(lines: seq<string>, maxLines: int, perm: seq<nat>)
    requires IsPermutation(perm, |lines|) && |lines| <= maxLines
    ensures multiset(Subset(lines, maxLines, perm)) == multiset(lines)
  {
    assert Subset(lines, maxLines, perm) == Shuffled(lines, perm);
    ShuffledIsPermutation(lines, perm);
  }
}
