/** train.py: the training table and its synthetic label. The regressor fitted
    on them is not modelled. */
module Train {
  import opened Frame
  import App

  /** The label before the cap: ten points per engagement percent plus three per
      `log1p` of the follower count. */
  function RawScore(engagement: real, followers: real, log1p: real -> real): real
  {
    engagement * 10.0 + log1p(followers) * 3.0
  }

  /** `generate_score`: `min(score, 100)`. */
  function GenerateScore(engagement: real, followers: real, log1p: real -> real): (s: real)
    ensures s <= 100.0
    ensures RawScore(engagement, followers, log1p) <= 100.0 ==> s == RawScore(engagement, followers, log1p)
    ensures RawScore(engagement, followers, log1p) > 100.0 ==> s == 100.0
  {
    var score := RawScore(engagement, followers, log1p);
    if 100.0 < score then 100.0 else score
  }

  /** `df["Score"] = df.apply(generate_score, axis=1)`, one row at a time. */
  method ScoreColumn(df: seq<Row>, log1p: real -> real) returns (labels: seq<real>)
    requires forall r :: r in df ==> r.followers.Num? && r.engagement.Num?
    ensures |labels| == |df|
    ensures forall i :: 0 <= i < |df| ==>
      labels[i] == GenerateScore(df[i].engagement.value, df[i].followers.value, log1p)
    ensures forall i :: 0 <= i < |labels| ==> labels[i] <= 100.0
  {
    var column := new real[|df|];
    for i := 0 to |df|
      invariant forall j :: 0 <= j < i ==>
        column[j] == GenerateScore(df[j].engagement.value, df[j].followers.value, log1p)
    {
      assert df[i] in df;
      column[i] := GenerateScore(df[i].engagement.value, df[i].followers.value, log1p);
    }
    labels := column[..];
  }

  /** The script up to the split: parse both columns, drop rows missing any
      feature, label every row. The table kept is the one the dashboard keeps. */
  method PrepareTrainingData(raw: seq<Row>, log1p: real -> real) returns (df: seq<Row>, y: seq<real>)
    ensures df == App.Cleaned(raw)
    ensures forall r :: r in df <==> r in Parsed(raw) && App.Usable(r)
    ensures forall i :: 0 <= i < |df| ==> App.Usable(df[i])
    ensures |y| == |df|
    ensures forall i :: 0 <= i < |df| ==>
      y[i] == GenerateScore(df[i].engagement.value, df[i].followers.value, log1p)
    ensures forall i :: 0 <= i < |y| ==> y[i] <= 100.0
  {
    df := ParseColumns(raw);
    df := DropNA(df, App.Required);
    App.CleanedRows(raw);
    y := ScoreColumn(df, log1p);
  }
}
