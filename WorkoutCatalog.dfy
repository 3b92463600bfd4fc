/**
 * The workout library page: the list filtered by level and category, the
 * option lists for the two filters, and the result-count label.
 */
module WorkoutCatalog {
  import opened Common

  /** The fields of a video the page reads; level and category may be null. */
  datatype Video = Video(id: string, title: string, level: Option<string>, category: Option<string>)

  /** The selection that imposes no constraint. */
  const All: string := "all"

  /** `selectedLevel === "all" || video.level === selectedLevel`, and the same for the category. */
  predicate Matches(v: Video, level: string, category: string)
  {
    (level == All || v.level == Some(level)) && (category == All || v.category == Some(category))
  }

  /** `filteredVideos`. */
  function FilteredVideos(videos: seq<Video>, level: string, category: string): (r: seq<Video>)
    ensures |r| <= |videos|
    ensures forall v :: v in r <==> v in videos && Matches(v, level, category)
  {
    if videos == [] then []
    else (if Matches(videos[0], level, category) then [videos[0]] else []) + FilteredVideos(videos[1..], level, category)
  }

  /** The filter keeps order: filtering a concatenation concatenates the filtered parts. */
  lemma {:induction false} FilterConcat(a: seq<Video>, b: seq<Video>, level: string, category: string)
    ensures FilteredVideos(a + b, level, category) == FilteredVideos(a, level, category) + FilteredVideos(b, level, category)
  {
    if a == [] {
      assert a + b == b;
    } else {
      assert (a + b)[0] == a[0];
      assert (a + b)[1..] == a[1..] + b;
      FilterConcat(a[1..], b, level, category);
    }
  }

  /** A single video survives the filter exactly when it matches. */
  lemma FilterSingle(v: Video, level: string, category: string)
    ensures FilteredVideos([v], level, category) == if Matches(v, level, category) then [v] else []
  {
    assert [v][1..] == [];
  }

  /** "all" / "all" shows every video, in its order. */
  lemma {:induction false} AllShowsEverything(videos: seq<Video>)
    ensures FilteredVideos(videos, All, All) == videos
  {
    if videos != [] {
      AllShowsEverything(videos[1..]);
    }
  }

  /** Filtering the filtered list again changes nothing. */
  lemma {:induction false} FilterIdempotent(videos: seq<Video>, level: string, category: string)
    ensures var r := FilteredVideos(videos, level, category); FilteredVideos(r, level, category) == r
  {
    if videos != [] {
      FilterIdempotent(videos[1..], level, category);
      var rest := FilteredVideos(videos[1..], level, category);
      if Matches(videos[0], level, category) {
        assert FilteredVideos(videos, level, category) == [videos[0]] + rest;
        FilterConcat([videos[0]], rest, level, category);
        FilterSingle(videos[0], level, category);
      } else {
        assert FilteredVideos(videos, level, category) == rest;
      }
    }
  }

  /** `videos.map(v => v.level).filter(Boolean)`: the present, non-empty values. */
  function TruthyValues(values: seq<Option<string>>): (r: seq<string>)
    ensures forall s :: s in r <==> s != "" && Some(s) in values
  {
    if values == [] then []
    else
      (match values[0] { case Some(s) => if s != "" then [s] else [] case None => [] })
      + TruthyValues(values[1..])
  }

  function LevelsOf(videos: seq<Video>): (r: seq<Option<string>>)
    ensures |r| == |videos| && forall k :: 0 <= k < |r| ==> r[k] == videos[k].level
  {
    seq(|videos|, k requires 0 <= k < |videos| => videos[k].level)
  }

  function CategoriesOf(videos: seq<Video>): (r: seq<Option<string>>)
    ensures |r| == |videos| && forall k :: 0 <= k < |r| ==> r[k] == videos[k].category
  {
    seq(|videos|, k requires 0 <= k < |videos| => videos[k].category)
  }

  ghost predicate NoDuplicates(s: seq<string>)
  {
    forall i, j :: 0 <= i < j < |s| ==> s[i] != s[j]
  }

  /** `Array.from(new Set(s))`: each value once, where it was first inserted. */
  function Dedup(s: seq<string>): (r: seq<string>)
    ensures NoDuplicates(r)
    ensures forall x :: x in r <==> x in s
    ensures |r| <= |s|
  {
    if s == [] then []
    else
      var d := Dedup(s[..|s| - 1]);
      assert s == s[..|s| - 1] + [s[|s| - 1]];
      if s[|s| - 1] in d then d else d + [s[|s| - 1]]
  }

  /** The position of the first occurrence of `x`. */
  function FirstIndex(s: seq<string>, x: string): (i: nat)
    requires x in s
    ensures i < |s| && s[i] == x && forall k :: 0 <= k < i ==> s[k] != x
  {
    if s[0] == x then 0 else 1 + FirstIndex(s[1..], x)
  }

  lemma FirstIndexExtend(s: seq<string>, y: string, x: string)
    requires x in s
    ensures FirstIndex(s + [y], x) == FirstIndex(s, x)
  {
    var i := FirstIndex(s, x);
    var j := FirstIndex(s + [y], x);
    assert (s + [y])[i] == x;
    assert j <= i;
    assert s[j] == x;
  }

  lemma FirstIndexLast(s: seq<string>, x: string)
    requires x !in s
    ensures FirstIndex(s + [x], x) == |s|
  {
  }

  /** One step of the order proof: the pair (i, j) after appending `last`. */
  lemma DedupOrderStep(init: seq<string>, last: string, i: int, j: int)
    requires forall i, j :: 0 <= i < j < |Dedup(init)| ==> FirstIndex(init, Dedup(init)[i]) < FirstIndex(init, Dedup(init)[j])
    requires 0 <= i < j < |Dedup(init + [last])|
    ensures var r := Dedup(init + [last]); FirstIndex(init + [last], r[i]) < FirstIndex(init + [last], r[j])
  {
    var s := init + [last];
    var d := Dedup(init);
    assert s[..|s| - 1] == init;
    var r := Dedup(s);
    assert r == if last in d then d else d + [last];
    assert r[i] == d[i] && d[i] in init;
    FirstIndexExtend(init, last, d[i]);
    if j < |d| {
      assert r[j] == d[j] && d[j] in init;
      FirstIndexExtend(init, last, d[j]);
    } else {
      assert r[j] == last && last !in init;
      FirstIndexLast(init, last);
    }
  }

  /** The deduplicated values come in the order of their first occurrences. */
  lemma {:induction false} DedupFirstOccurrenceOrder(s: seq<string>)
    ensures var r := Dedup(s);
      forall i, j :: 0 <= i < j < |r| ==> FirstIndex(s, r[i]) < FirstIndex(s, r[j])
  {
    if s != [] {
      var init := s[..|s| - 1];
      var last := s[|s| - 1];
      assert s == init + [last];
      DedupFirstOccurrenceOrder(init);
      forall i, j | 0 <= i < j < |Dedup(s)| ensures FirstIndex(s, Dedup(s)[i]) < FirstIndex(s, Dedup(s)[j]) {
        DedupOrderStep(init, last, i, j);
      }
    }
  }

  /** `levels`: "all", then each distinct truthy level in first-occurrence order. */
  function Levels(videos: seq<Video>): (r: seq<string>)
    ensures |r| >= 1 && r[0] == All
    ensures NoDuplicates(r[1..])
    ensures forall x :: x in r[1..] <==> x != "" && exists k :: 0 <= k < |videos| && videos[k].level == Some(x)
  {
    var r := [All] + Dedup(TruthyValues(LevelsOf(videos)));
    assert r[1..] == Dedup(TruthyValues(LevelsOf(videos)));
    r
  }

  /** `categories`: the same derivation over the categories. */
  function Categories(videos: seq<Video>): (r: seq<string>)
    ensures |r| >= 1 && r[0] == All
    ensures NoDuplicates(r[1..])
    ensures forall x :: x in r[1..] <==> x != "" && exists k :: 0 <= k < |videos| && videos[k].category == Some(x)
  {
    var r := [All] + Dedup(TruthyValues(CategoriesOf(videos)));
    assert r[1..] == Dedup(TruthyValues(CategoriesOf(videos)));
    r
  }

  /** Choosing any level the page offers, with every category, shows at least one video. */
  lemma OfferedLevelIsNonEmpty(videos: seq<Video>, level: string)
    requires level in Levels(videos)[1..]
    ensures FilteredVideos(videos, level, All) != []
  {
    var k :| 0 <= k < |videos| && videos[k].level == Some(level);
    assert videos[k] in videos && Matches(videos[k], level, All);
  }

  /** `{n} {n === 1 ? "treino encontrado" : "treinos encontrados"}`. */
  function CountLabel(n: nat): (r: string)
    ensures n == 1 ==> r == "1 treino encontrado"
    ensures n != 1 ==> r == DecimalString(n) + " treinos encontrados"
  {
    DecimalString(n) + " " + (if n == 1 then "treino encontrado" else "treinos encontrados")
  }

  /** The label names the count it was made from: different counts give different labels. */
  lemma CountLabelInjective(m: nat, n: nat)
    requires CountLabel(m) == CountLabel(n)
    ensures m == n
  {
    if m != 1 && n != 1 {
      var dm, dn := DecimalString(m), DecimalString(n);
      assert |dm| + 20 == |dn| + 20;
      assert forall k :: 0 <= k < |dm| ==> dm[k] == CountLabel(m)[k];
      assert forall k :: 0 <= k < |dn| ==> dn[k] == CountLabel(n)[k];
      assert dm == dn;
      DecimalStringInjective(m, n);
    }
  }

  /** The "nothing found" message shows exactly when no video matches both filters. */
  predicate ShowsEmptyState(videos: seq<Video>, level: string, category: string)
  {
    |FilteredVideos(videos, level, category)| == 0
  }

  lemma EmptyStateIffNoMatch(videos: seq<Video>, level: string, category: string)
    ensures ShowsEmptyState(videos, level, category) <==> forall v :: v in videos ==> !Matches(v, level, category)
  {
    var r := FilteredVideos(videos, level, category);
    if |r| != 0 {
      assert r[0] in r;
    }
  }
}
