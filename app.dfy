/** app.py: the dashboard's data loading, its platform list and the
    recommendation block run when the form is submitted. */
module App {
  import opened Wrappers
  import opened Seqs
  import Text
  import opened Decimal
  import opened Parsers
  import opened Frame

  // ---------------------------------------------------------------------------
  // load_data

  /** The columns `load_data` requires to be present. */
  const Required: set<Column> := {FollowerCount, EngagementRate, Category, Country, PlatformUsed}

  /** A row the dashboard can use: both numbers parsed and every text field present. */
  predicate Usable(r: Row)
  {
    r.followers.Num? && r.engagement.Num? && r.platform.Some? && r.category.Some? && r.country.Some?
  }

  /** The table `load_data` returns. */
  function Cleaned(raw: seq<Row>): seq<Row>
  {
    DropNA(Parsed(raw), Required)
  }

  /** For a parsed row, having all five columns is the same as being usable. */
  lemma CompleteIsUsable(r: Row)
    requires !r.followers.Str? && !r.engagement.Str?
    ensures Complete(r, Required) <==> Usable(r)
  {
    if Usable(r) {
      forall c | c in Required ensures !IsMissing(r, c) {
      }
    }
    if Complete(r, Required) {
      assert !IsMissing(r, FollowerCount) && !IsMissing(r, EngagementRate);
      assert !IsMissing(r, PlatformUsed) && !IsMissing(r, Category) && !IsMissing(r, Country);
    }
  }

  /** The cleaned table holds exactly the parsed rows that are usable. */
  lemma CleanedRows(raw: seq<Row>)
    ensures forall r :: r in Cleaned(raw) <==> r in Parsed(raw) && Usable(r)
  {
    forall r | r in Parsed(raw) ensures Complete(r, Required) <==> Usable(r) {
      var i :| 0 <= i < |Parsed(raw)| && Parsed(raw)[i] == r;
      ParsedCells(raw, i);
      CompleteIsUsable(r);
    }
  }

  /** `load_data`: read, parse both numeric columns in place, drop incomplete rows. */
  method LoadData(raw: seq<Row>) returns (df: seq<Row>)
    ensures df == Cleaned(raw)
    ensures forall r :: r in df <==> r in Parsed(raw) && Usable(r)
  {
    df := ParseColumns(raw);
    df := DropNA(df, Required);
    CleanedRows(raw);
  }

  /** Cleaning a cleaned table changes nothing. */
  lemma CleaningIdempotent(raw: seq<Row>)
    ensures Cleaned(Cleaned(raw)) == Cleaned(raw)
  {
    var df := Cleaned(raw);
    CleanedRows(raw);
    ParsedOfParsed(df);
    forall r | r in df ensures Complete(r, Required) {
      assert Usable(r);
    }
    DropNAOfComplete(df, Required);
  }

  /** Cleaning keeps the surviving rows in their original order. */
  lemma CleaningKeepsOrder(raw: seq<Row>)
    requires LabelsIncreasing(raw)
    ensures LabelsIncreasing(Cleaned(raw))
  {
    var p := Parsed(raw);
    assert LabelsIncreasing(p) by {
      forall i, j | 0 <= i < j < |p| ensures LabelBefore(p[i], p[j]) {
        assert p[i].index == raw[i].index && p[j].index == raw[j].index;
        assert LabelBefore(raw[i], raw[j]);
      }
    }
    DropNAKeepsOrder(p, Required);
  }

  // ---------------------------------------------------------------------------
  // extract_platforms

  /** The recognised platforms, in the order the source lists them. */
  const Major: seq<string> := ["Instagram", "YouTube", "TikTok", "Twitter"]

  /** The recognised platforms in Python's string order. */
  const MajorSorted: seq<string> := ["Instagram", "TikTok", "Twitter", "YouTube"]

  /** Strictly ascending in Python's string order, hence also free of duplicates. */
  ghost predicate StrictlyAscending(s: seq<string>)
  {
    Ordered(s, Text.LexLess)
  }

  lemma MajorSortedAscending()
    ensures StrictlyAscending(MajorSorted)
    ensures forall p :: p in MajorSorted <==> p in Major
  {
    assert Text.LexLess("Instagram", "TikTok");
    assert Text.LexLess("Instagram", "Twitter");
    assert Text.LexLess("Instagram", "YouTube");
    assert Text.LexLess("TikTok", "Twitter") by {
      assert "TikTok"[1..] == "ikTok" && "Twitter"[1..] == "witter";
      assert Text.LexLess("ikTok", "witter");
    }
    assert Text.LexLess("TikTok", "YouTube");
    assert Text.LexLess("Twitter", "YouTube");
  }

  /** The names among `names` that the row's platform text mentions. */
  function PlatformsOf(r: Row, names: seq<string>): set<string>
  {
    set p | p in names && Mentions(r, p)
  }

  /** The platforms found in the first rows of a table, row by row. */
  function FoundIn(rows: seq<Row>): set<string>
  {
    if rows == [] then {} else FoundIn(rows[..|rows| - 1]) + PlatformsOf(rows[|rows| - 1], Major)
  }

  /** A platform is found exactly when it is recognised and some row mentions it. */
  lemma {:induction false} FoundInSpec(rows: seq<Row>)
    ensures forall p :: p in FoundIn(rows) <==> p in Major && exists i :: 0 <= i < |rows| && Mentions(rows[i], p)
    decreases |rows|
  {
    if rows != [] {
      var init := rows[..|rows| - 1];
      FoundInSpec(init);
      forall p ensures p in FoundIn(rows) <==> p in Major && exists i :: 0 <= i < |rows| && Mentions(rows[i], p) {
        if p in Major && exists i :: 0 <= i < |rows| && Mentions(rows[i], p) {
          var i :| 0 <= i < |rows| && Mentions(rows[i], p);
          if i < |rows| - 1 {
            assert init[i] == rows[i];
          }
        }
        if p in FoundIn(init) {
          var i :| 0 <= i < |init| && Mentions(init[i], p);
          assert rows[i] == init[i];
        }
      }
    }
  }

  /** `sorted(found)` for a set of recognised platforms. */
  function SortedPlatforms(found: set<string>): (r: seq<string>)
    requires forall p :: p in found ==> p in Major
    ensures StrictlyAscending(r)
    ensures forall p :: p in r <==> p in found
    ensures |r| <= 4
  {
    MajorSortedAscending();
    FilterKeepsOrder(MajorSorted, (p: string) => p in found, Text.LexLess);
    Filter(MajorSorted, (p: string) => p in found)
  }

  /** `extract_platforms`: "All", then the recognised platforms some row mentions
      (case-insensitively), in ascending order. */
  method ExtractPlatforms(df: seq<Row>) returns (options: seq<string>)
    requires forall i :: 0 <= i < |df| ==> df[i].platform.Some?
    ensures 1 <= |options| <= 5 && options[0] == "All"
    ensures StrictlyAscending(options[1..])
    ensures forall p :: p in options[1..] <==>
      p in Major && exists i :: 0 <= i < |df| && Text.ContainsIgnoreCase(df[i].platform.value, p)
  {
    var found: set<string> := {};
    for i := 0 to |df|
      invariant found == FoundIn(df[..i])
    {
      var value := df[i].platform.value;
      for k := 0 to |Major|
        invariant found == FoundIn(df[..i]) + PlatformsOf(df[i], Major[..k])
      {
        var platform := Major[k];
        assert Major[..k + 1] == Major[..k] + [platform];
        if Text.ContainsIgnoreCase(value, platform) {
          found := found + {platform};
        }
      }
      assert Major[..|Major|] == Major;
      assert df[..i + 1][..i] == df[..i];
    }
    assert df[..|df|] == df;
    FoundInSpec(df);
    options := ["All"] + SortedPlatforms(found);
    assert options[1..] == SortedPlatforms(found);
  }

  // ---------------------------------------------------------------------------
  // The recommendation run when the form is submitted

  /** A matching influencer with the model's score and the estimated cost. */
  datatype Candidate = Candidate(row: Row, score: real, cost: real)

  /** What the dashboard shows: a warning that nothing matched, or the top
      candidates, `relaxed` when none fitted the budget and the budget was ignored. */
  datatype Recommendation = NoResults | Ranked(relaxed: bool, top: seq<Candidate>)

  /** How many candidates are shown. */
  const TopCount: nat := 3

  /** Ten dollars per thousand followers. */
  function EstimatedCost(followers: real): (c: real)
    ensures followers >= 0.0 ==> c >= 0.0
    ensures c * 100.0 == followers
  {
    (followers / 1000.0) * 10.0
  }

  /** The row passes the three filters of the form. */
  predicate Selected(r: Row, platform: string, category: string, country: string)
  {
    (platform == "All" || Mentions(r, platform))
    && r.category == Some(category) && r.country == Some(country)
  }

  /** `df[(df["Category"] == category) & (df["Country"] == country)]`. */
  function ByCategoryCountry(rows: seq<Row>, category: string, country: string): (r: seq<Row>)
    ensures forall x :: x in r <==> x in rows && x.category == Some(category) && x.country == Some(country)
    ensures |r| <= |rows|
  {
    Filter(rows, (x: Row) => x.category == Some(category) && x.country == Some(country))
  }

  /** The rows that pass the form's filters, in table order. */
  function Matches(df: seq<Row>, platform: string, category: string, country: string): (r: seq<Row>)
    ensures forall x :: x in r <==> x in df && Selected(x, platform, category, country)
  {
    var byPlatform := if platform != "All" then RowsMentioning(df, platform) else df;
    ByCategoryCountry(byPlatform, category, country)
  }

  /** The `Score` and `Estimated Cost` columns added to the matching rows. */
  function Scored(rows: seq<Row>, score: Row -> real): (r: seq<Candidate>)
    requires forall x :: x in rows ==> x.followers.Num?
    ensures |r| == |rows|
    ensures forall c :: c in r <==>
      c.row in rows && c.score == score(c.row) && c.cost == EstimatedCost(c.row.followers.value)
  {
    var r := seq(|rows|, i requires 0 <= i < |rows| => Candidate(rows[i], score(rows[i]), EstimatedCost(rows[i].followers.value)));
    assert forall c: Candidate :: c.row in rows && c.score == score(c.row) && c.cost == EstimatedCost(c.row.followers.value) ==> c in r by {
      forall c: Candidate | c.row in rows && c.score == score(c.row) && c.cost == EstimatedCost(c.row.followers.value) ensures c in r {
        var i :| 0 <= i < |rows| && rows[i] == c.row;
        assert r[i] == c;
      }
    }
    r
  }

  /** `df[df["Estimated Cost"] <= budget]`. */
  function Affordable(cs: seq<Candidate>, budget: real): (r: seq<Candidate>)
    ensures forall c :: c in r <==> c in cs && c.cost <= budget
    ensures multiset(r) <= multiset(cs)
  {
    Filter(cs, (c: Candidate) => c.cost <= budget)
  }

  /** Scores never increase down the sequence. */
  predicate NonIncreasing(cs: seq<Candidate>)
  {
    forall i, j :: 0 <= i < j < |cs| ==> cs[i].score >= cs[j].score
  }

  /** Inserts `c` into a sequence ordered by descending score. */
  function InsertByScore(c: Candidate, cs: seq<Candidate>): (r: seq<Candidate>)
    requires NonIncreasing(cs)
    ensures NonIncreasing(r)
    ensures multiset(r) == multiset(cs) + multiset{c}
  {
    if cs == [] || c.score >= cs[0].score then
      [c] + cs
    else
      var rest := InsertByScore(c, cs[1..]);
      InsertBelowHead(c, cs, rest);
      [cs[0]] + rest
  }

  /** The step of `InsertByScore` that puts the head of `cs` back in front. */
  lemma InsertBelowHead(c: Candidate, cs: seq<Candidate>, rest: seq<Candidate>)
    requires cs != [] && c.score < cs[0].score && NonIncreasing(cs)
    requires NonIncreasing(rest) && multiset(rest) == multiset(cs[1..]) + multiset{c}
    ensures NonIncreasing([cs[0]] + rest)
    ensures multiset([cs[0]] + rest) == multiset(cs) + multiset{c}
  {
    assert cs == [cs[0]] + cs[1..];
    var r := [cs[0]] + rest;
    forall i, j | 0 <= i < j < |r| ensures r[i].score >= r[j].score {
      var x := rest[j - 1];
      assert r[j] == x;
      if i > 0 {
        assert r[i] == rest[i - 1];
      } else {
        assert x in multiset(rest);
        if x != c {
          assert x in multiset(cs[1..]);
          var k :| 0 <= k < |cs[1..]| && cs[1..][k] == x;
          assert cs[k + 1] == x;
        }
      }
    }
  }

  /** `sort_values("Score", ascending=False)`: the same candidates, by descending score. */
  function SortByScore(cs: seq<Candidate>): (r: seq<Candidate>)
    ensures NonIncreasing(r)
    ensures multiset(r) == multiset(cs)
  {
    if cs == [] then []
    else
      assert cs == [cs[0]] + cs[1..];
      InsertByScore(cs[0], SortByScore(cs[1..]))
  }

  /** `head(k)`: the first `k` elements, or all of them when there are fewer. */
  function Take(cs: seq<Candidate>, k: nat): (r: seq<Candidate>)
    ensures |r| == if |cs| < k then |cs| else k
    ensures r == cs[..|r|]
  {
    if |cs| <= k then cs else cs[..k]
  }

  /** `top` is a best-`k` choice from `pool`: as many as there are up to `k`, drawn
      from the pool, by descending score, and no candidate left out scores more
      than one that was kept. Candidates of equal score may be chosen in any order. */
  ghost predicate IsTopK(top: seq<Candidate>, pool: seq<Candidate>, k: nat)
  {
    && |top| == (if |pool| < k then |pool| else k)
    && multiset(top) <= multiset(pool)
    && NonIncreasing(top)
    && forall c, i :: c in multiset(pool) - multiset(top) && 0 <= i < |top| ==> c.score <= top[i].score
  }

  /** A candidate left out of the head of a descending sequence scores no more
      than any candidate in the head. */
  lemma LeftOutScoresLess(sorted: seq<Candidate>, m: nat, c: Candidate, i: nat)
    requires NonIncreasing(sorted) && m <= |sorted| && i < m
    requires c in multiset(sorted[m..])
    ensures c.score <= sorted[i].score
  {
    var rest := sorted[m..];
    assert c in rest;
    var j :| 0 <= j < |rest| && rest[j] == c;
    assert sorted[m + j] == c;
  }

  /** The head of any descending arrangement of the pool is a best-`k` choice. */
  lemma HeadIsTopK(sorted: seq<Candidate>, pool: seq<Candidate>, k: nat)
    requires NonIncreasing(sorted) && multiset(sorted) == multiset(pool)
    ensures IsTopK(Take(sorted, k), pool, k)
  {
    var top := Take(sorted, k);
    var m := |top|;
    var rest := sorted[m..];
    assert |sorted| == |pool| by {
      assert |multiset(sorted)| == |multiset(pool)|;
    }
    assert NonIncreasing(top) by {
      forall i, j | 0 <= i < j < |top| ensures top[i].score >= top[j].score {
        assert top[i] == sorted[i] && top[j] == sorted[j];
      }
    }
    assert sorted == top + rest;
    assert multiset(pool) == multiset(top) + multiset(rest);
    assert multiset(pool) - multiset(top) == multiset(rest);
    forall c, i | c in multiset(pool) - multiset(top) && 0 <= i < |top| ensures c.score <= top[i].score {
      LeftOutScoresLess(sorted, m, c, i);
    }
  }

  /** Sorting by descending score and keeping the head gives a best-`k` choice. */
  lemma TakeSortedIsTopK(pool: seq<Candidate>, k: nat)
    ensures IsTopK(Take(SortByScore(pool), k), pool, k)
  {
    HeadIsTopK(SortByScore(pool), pool, k);
  }

  /** The candidates ranked for the matching `rows`: the affordable ones, or all
      of them when none is. */
  function Pool(rows: seq<Row>, budget: real, score: Row -> real): seq<Candidate>
    requires forall x :: x in rows ==> x.followers.Num?
  {
    var scored := Scored(rows, score);
    var budgeted := Affordable(scored, budget);
    if budgeted == [] then scored else budgeted
  }

  /** No candidate is affordable exactly when every row costs more than the budget. */
  lemma NoneAffordable(rows: seq<Row>, budget: real, score: Row -> real)
    requires forall x :: x in rows ==> x.followers.Num?
    ensures Affordable(Scored(rows, score), budget) == [] <==>
      forall x :: x in rows ==> EstimatedCost(x.followers.value) > budget
  {
    var scored := Scored(rows, score);
    var budgeted := Affordable(scored, budget);
    if budgeted == [] {
      forall x | x in rows ensures EstimatedCost(x.followers.value) > budget {
        var c := Candidate(x, score(x), EstimatedCost(x.followers.value));
        assert c in scored;
      }
    } else {
      assert budgeted[0] in scored;
    }
  }

  /** The pool is the rows scored and costed, and only those within budget
      whenever any is. */
  lemma PoolMembers(rows: seq<Row>, budget: real, score: Row -> real)
    requires forall x :: x in rows ==> x.followers.Num?
    ensures forall c :: c in Pool(rows, budget, score) <==>
      && c.row in rows && c.score == score(c.row) && c.cost == EstimatedCost(c.row.followers.value)
      && (c.cost <= budget || forall x :: x in rows ==> EstimatedCost(x.followers.value) > budget)
  {
    NoneAffordable(rows, budget, score);
  }

  /** The `else` branch: score and cost the matching rows, keep the affordable
      ones if there are any, and take the three best. */
  method Rank(rows: seq<Row>, budget: real, score: Row -> real) returns (relaxed: bool, top: seq<Candidate>)
    requires rows != []
    requires forall x :: x in rows ==> x.followers.Num?
    ensures relaxed <==> forall x :: x in rows ==> EstimatedCost(x.followers.value) > budget
    ensures IsTopK(top, Pool(rows, budget, score), TopCount)
    ensures 1 <= |top| <= TopCount
    ensures forall c :: c in top ==>
      && c.row in rows && c.score == score(c.row) && c.cost == EstimatedCost(c.row.followers.value)
      && (!relaxed ==> c.cost <= budget)
  {
    var scored := Scored(rows, score);
    var budgeted := Affordable(scored, budget);
    NoneAffordable(rows, budget, score);
    relaxed := budgeted == [];
    var pool := if relaxed then scored else budgeted;
    TakeSortedIsTopK(pool, TopCount);
    top := Take(SortByScore(pool), TopCount);
    PoolMembers(rows, budget, score);
    forall c | c in top ensures c in pool {
      assert c in multiset(top);
    }
  }

  /** The block run on submit. `score` stands for the trained model's prediction
      on one row. */
  method Recommend(df: seq<Row>, platform: string, category: string, country: string,
                   budget: real, score: Row -> real) returns (result: Recommendation)
    requires forall x :: x in df ==> x.followers.Num?
    ensures result.NoResults? <==> forall x :: x in df ==> !Selected(x, platform, category, country)
    ensures result.Ranked? ==>
      (result.relaxed <==> forall x :: x in df && Selected(x, platform, category, country) ==>
                                         EstimatedCost(x.followers.value) > budget)
    ensures result.Ranked? ==>
      IsTopK(result.top, Pool(Matches(df, platform, category, country), budget, score), TopCount)
    ensures result.Ranked? ==> 1 <= |result.top| <= TopCount
    ensures result.Ranked? ==> forall c :: c in result.top ==>
      && c.row in df && Selected(c.row, platform, category, country)
      && c.score == score(c.row) && c.cost == EstimatedCost(c.row.followers.value)
      && (!result.relaxed ==> c.cost <= budget)
  {
    var filtered := df;
    if platform != "All" {
      filtered := RowsMentioning(filtered, platform);
    }
    filtered := ByCategoryCountry(filtered, category, country);
    assert filtered == Matches(df, platform, category, country);
    if filtered == [] {
      result := NoResults;
    } else {
      assert filtered[0] in df;
      var relaxed, top := Rank(filtered, budget, score);
      result := Ranked(relaxed, top);
    }
  }

  lemma TwoPointFive()
    ensures ParseFloat("2.5") == Some(2.5)
  {
    assert [DigitChar(2), '.', DigitChar(5)] == "2.5";
    ParseFloatOfTenths(2, 5);
  }

  lemma ThreePointTwo()
    ensures ParseFloat("3.2") == Some(3.2)
  {
    assert [DigitChar(3), '.', DigitChar(2)] == "3.2";
    ParseFloatOfTenths(3, 2);
  }

  lemma TwoPointFiveMillion()
    ensures ParseFollowersText("2.5M") == Some(2500000.0)
  {
    var u := "2.5";
    assert u + ['M'] == "2.5M";
    assert ParseFollowersText(u + ['M']) == Scale(ParseFloat(u), 1000000.0) by {
      FollowersMarked(u, 'M');
    }
    TwoPointFive();
  }

  lemma ThreePointTwoPercent()
    ensures ParseEngagementText("3.2%") == Some(3.2)
  {
    var u := "3.2";
    assert u + "%" == "3.2%";
    assert ParseEngagementText(u + "%") == ParseFloat(u) by {
      RateDecorated(u);
    }
    ThreePointTwo();
  }

  /** A worked case: an Instagram-and-TikTok beauty influencer in the US listed
      with "2.5M" followers and a "3.2%" rate is usable after cleaning, passes the
      Instagram / Beauty / US filters and costs 25,000, within a 50,000 budget. */
  lemma BeautyExample()
    ensures var raw := Row(0, "A", Some("Instagram, TikTok"), Some("Beauty"), Some("US"), Str("2.5M"), Str("3.2%"));
      var r := Parsed([raw])[0];
      && r.followers == Num(2500000.0) && r.engagement == Num(3.2)
      && Usable(r) && Selected(r, "Instagram", "Beauty", "US")
      && EstimatedCost(r.followers.value) == 25000.0 <= 50000.0
  {
    TwoPointFiveMillion();
    ThreePointTwoPercent();
    Text.ContainsPrefix("Instagram, TikTok", "Instagram");
  }
}
