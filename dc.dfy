/** dc.py: the Instagram-only cleaning script. */
module Dc {
  import opened Parsers
  import opened Frame
  import App

  /** The only columns dc.py requires. */
  const Kept: set<Column> := {FollowerCount, EngagementRate}

  /** The Instagram rows, parsed, with missing numbers dropped, before relabelling. */
  function InstagramRows(raw: seq<Row>): seq<Row>
  {
    DropNA(Parsed(RowsMentioning(raw, "Instagram")), Kept)
  }

  /** For a parsed row, having both numbers is the same as both having parsed. */
  lemma CompleteIsNumeric(r: Row)
    requires !r.followers.Str? && !r.engagement.Str?
    ensures Complete(r, Kept) <==> r.followers.Num? && r.engagement.Num?
  {
    if Complete(r, Kept) {
      assert !IsMissing(r, FollowerCount) && !IsMissing(r, EngagementRate);
    }
  }

  /** The rows of `InstagramRows` are exactly the parsed Instagram rows whose
      follower count and engagement rate both parsed. */
  lemma InstagramRowsSpec(raw: seq<Row>)
    ensures forall r :: r in InstagramRows(raw) <==>
      r in Parsed(RowsMentioning(raw, "Instagram")) && r.followers.Num? && r.engagement.Num?
    ensures forall r :: r in InstagramRows(raw) ==> Mentions(r, "Instagram")
  {
    var insta := RowsMentioning(raw, "Instagram");
    var p := Parsed(insta);
    forall r | r in p ensures Mentions(r, "Instagram") {
      var i :| 0 <= i < |p| && p[i] == r;
      assert insta[i] in insta;
      assert r.platform == insta[i].platform;
    }
    forall r | r in p ensures Complete(r, Kept) <==> r.followers.Num? && r.engagement.Num? {
      var i :| 0 <= i < |p| && p[i] == r;
      ParsedCells(insta, i);
      CompleteIsNumeric(r);
    }
  }

  /** The script: keep the rows mentioning Instagram, parse both numeric columns,
      drop rows missing either, and renumber the rows 0, 1, 2, ... */
  method CleanInstagram(raw: seq<Row>) returns (cleaned: seq<Row>)
    ensures cleaned == ResetIndex(InstagramRows(raw))
    ensures forall i :: 0 <= i < |cleaned| ==> cleaned[i].index == i
    ensures forall i :: 0 <= i < |cleaned| ==>
      Mentions(cleaned[i], "Instagram") && cleaned[i].followers.Num? && cleaned[i].engagement.Num?
  {
    var df := RowsMentioning(raw, "Instagram");
    df := ParseColumns(df);
    cleaned := ResetIndex(DropNA(df, Kept));
    InstagramRowsSpec(raw);
    forall i | 0 <= i < |cleaned|
      ensures Mentions(cleaned[i], "Instagram") && cleaned[i].followers.Num? && cleaned[i].engagement.Num?
    {
      var kept := InstagramRows(raw);
      assert kept[i] in kept;
      assert cleaned[i].(index := kept[i].index) == kept[i];
    }
  }

  /** The relabelled rows keep the relative order they had in the sheet. */
  lemma CleaningKeepsOrder(raw: seq<Row>)
    requires LabelsIncreasing(raw)
    ensures LabelsIncreasing(InstagramRows(raw))
    ensures var kept := InstagramRows(raw);
      var cleaned := ResetIndex(kept);
      forall i :: 0 <= i < |cleaned| ==> cleaned[i] == Relabelled(kept[i], i)
  {
    var insta := RowsMentioning(raw, "Instagram");
    RowsMentioningKeepsOrder(raw, "Instagram");
    var p := Parsed(insta);
    assert LabelsIncreasing(p) by {
      forall i, j | 0 <= i < j < |p| ensures LabelBefore(p[i], p[j]) {
        assert LabelBefore(insta[i], insta[j]);
      }
    }
    DropNAKeepsOrder(p, Kept);
  }

  /** Unlike the dashboard, dc.py keeps an Instagram row whose category or
      country is empty, as long as both numbers are present. */
  lemma KeepsRowsTheDashboardDrops(r: Row)
    requires Mentions(r, "Instagram")
    requires r.followers.Num? && r.engagement.Num?
    requires r.category.None? || r.country.None?
    ensures InstagramRows([r]) == [r]
    ensures App.Cleaned([r]) == []
  {
    assert Parsed([r]) == [r];
    assert RowsMentioning([r], "Instagram") == [r];
    assert Complete(r, Kept);
    assert !Complete(r, App.Required) by {
      assert IsMissing(r, Category) || IsMissing(r, Country);
    }
  }
}
