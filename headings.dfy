// Heading counts: the loop over levels 1 to 6 that stores, under "h1" to
// "h6", how many elements of that tag the document holds.

module Headings {

  /** The tag name of a heading level: "h" followed by the level's digit. */
  function HeadingKey(level: int): (k: string)
    requires 1 <= level <= 6
    ensures |k| == 2 && k[0] == 'h' && k[1] == ('0' as int + level) as char
    ensures k in HeadingKeys
  {
    var k := "h" + [('0' as int + level) as char];
    assert k == ["h1", "h2", "h3", "h4", "h5", "h6"][level - 1];
    k
  }

  /** The six keys of `heading_counts`. */
  const HeadingKeys: set<string> := {"h1", "h2", "h3", "h4", "h5", "h6"}

  /** `len(tree.xpath('//' + tag))`: the number of elements with that tag name, in a document given as its tags. */
  function Occurrences(tags: seq<string>, tag: string): (n: nat)
    ensures n <= |tags|
  {
    if tags == [] then 0
    else (if tags[0] == tag then 1 else 0) + Occurrences(tags[1..], tag)
  }

  /** Counting occurrences is taking the tag's multiplicity in the document's multiset of tags. */
  lemma {:induction false} OccurrencesIsMultiplicity(tags: seq<string>, tag: string)
    ensures Occurrences(tags, tag) == multiset(tags)[tag]
  {
    if tags != [] {
      OccurrencesIsMultiplicity(tags[1..], tag);
      assert tags == [tags[0]] + tags[1..];
      assert multiset(tags) == multiset{tags[0]} + multiset(tags[1..]);
    }
  }

  /** The map `heading_counts` holds after the loop. */
  function HeadingCounts(tags: seq<string>): (counts: map<string, nat>)
  {
    map k | k in HeadingKeys :: Occurrences(tags, k)
  }

  /** The map after the rounds for the levels below `n`. */
  function CountsBelow(tags: seq<string>, n: int): (counts: map<string, nat>)
    requires 1 <= n <= 7
  {
    if n == 1 then map[]
    else CountsBelow(tags, n - 1)[HeadingKey(n - 1) := Occurrences(tags, HeadingKey(n - 1))]
  }

  /** Every round stores under its key the number of elements with that tag. */
  lemma {:induction false} CountsBelowValues(tags: seq<string>, n: int)
    requires 1 <= n <= 7
    ensures forall k | k in CountsBelow(tags, n) :: CountsBelow(tags, n)[k] == Occurrences(tags, k)
  {
    if n > 1 {
      CountsBelowValues(tags, n - 1);
    }
  }

  /** The six rounds write the six keys "h1" to "h6". */
  lemma CountsBelowKeys(tags: seq<string>)
    ensures CountsBelow(tags, 7).Keys == HeadingKeys
  {
    assert CountsBelow(tags, 1) == map[];
    assert CountsBelow(tags, 2).Keys == {"h1"} by { assert HeadingKey(1) == "h1"; }
    assert CountsBelow(tags, 3).Keys == {"h1", "h2"} by { assert HeadingKey(2) == "h2"; }
    assert CountsBelow(tags, 4).Keys == {"h1", "h2", "h3"} by { assert HeadingKey(3) == "h3"; }
    assert CountsBelow(tags, 5).Keys == {"h1", "h2", "h3", "h4"} by { assert HeadingKey(4) == "h4"; }
    assert CountsBelow(tags, 6).Keys == {"h1", "h2", "h3", "h4", "h5"} by { assert HeadingKey(5) == "h5"; }
    assert HeadingKey(6) == "h6";
  }

  /** After the six rounds, the map is `HeadingCounts`. */
  lemma AllRounds(tags: seq<string>)
    ensures CountsBelow(tags, 7) == HeadingCounts(tags)
  {
    CountsBelowKeys(tags);
    CountsBelowValues(tags, 7);
  }

  /** The `for idx in range(1, 7)` loop of the analyser. */
  method CountHeadings(tags: seq<string>) returns (counts: map<string, nat>)
    ensures counts == HeadingCounts(tags)
  {
    counts := map[];
    for idx := 1 to 7
      invariant counts == CountsBelow(tags, idx)
    {
      counts := counts[HeadingKey(idx) := Occurrences(tags, HeadingKey(idx))];
    }
    AllRounds(tags);
  }

  /** `heading_counts` has exactly the keys "h1" to "h6", each holding the number of elements of that level. */
  lemma HeadingCountsMeaning(tags: seq<string>)
    ensures HeadingCounts(tags).Keys == HeadingKeys
    ensures forall level | 1 <= level <= 6 ::
      HeadingCounts(tags)[HeadingKey(level)] == multiset(tags)[HeadingKey(level)]
  {
    forall level | 1 <= level <= 6
      ensures HeadingCounts(tags)[HeadingKey(level)] == multiset(tags)[HeadingKey(level)]
    {
      OccurrencesIsMultiplicity(tags, HeadingKey(level));
    }
  }

  /** The number of heading elements (of any level 1 to 6) in the document. */
  function HeadingElements(tags: seq<string>): (n: nat)
    ensures n <= |tags|
  {
    if tags == [] then 0
    else (if tags[0] in HeadingKeys then 1 else 0) + HeadingElements(tags[1..])
  }

  /** The sum of the six counts of `heading_counts`. */
  function SumCounts(counts: map<string, nat>): (sum: nat)
    requires HeadingKeys <= counts.Keys
  {
    counts["h1"] + counts["h2"] + counts["h3"] + counts["h4"] + counts["h5"] + counts["h6"]
  }

  /** Every heading element is counted under exactly one level: the six counts add up to the number of headings. */
  lemma {:induction false} CountsCoverHeadings(tags: seq<string>)
    ensures SumCounts(HeadingCounts(tags)) == HeadingElements(tags)
  {
    if tags != [] {
      CountsCoverHeadings(tags[1..]);
    }
  }
}
