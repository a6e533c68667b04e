/** The influencer sheet as pandas holds it, and the table operations the three
    scripts share: the in-place column parse, `dropna`, the case-insensitive
    platform mask and `reset_index(drop=True)`. */
module Frame {
  import opened Wrappers
  import opened Seqs
  import Text
  import opened Parsers

  /** One row of the sheet. `index` is the row's pandas index label; the text
      columns are `None` where the cell is empty (NaN). */
  datatype Row = Row(
    index: nat,
    name: string,
    platform: Option<string>,
    category: Option<string>,
    country: Option<string>,
    followers: Cell,
    engagement: Cell)

  /** The columns `dropna` is asked about. */
  datatype Column = PlatformUsed | Category | Country | FollowerCount | EngagementRate

  /** pandas' `isna` on one cell of the row. */
  predicate IsMissing(r: Row, c: Column)
  {
    match c
    case PlatformUsed => r.platform.None?
    case Category => r.category.None?
    case Country => r.country.None?
    case FollowerCount => r.followers.NaN?
    case EngagementRate => r.engagement.NaN?
  }

  predicate Complete(r: Row, subset: set<Column>)
  {
    forall c :: c in subset ==> !IsMissing(r, c)
  }

  /** `df.dropna(subset=...)`: the rows with no missing cell among `subset`, in order. */
  function DropNA(rows: seq<Row>, subset: set<Column>): (r: seq<Row>)
    ensures forall x :: x in r <==> x in rows && Complete(x, subset)
    ensures |r| <= |rows|
  {
    Filter(rows, (x: Row) => Complete(x, subset))
  }

  /** Dropping missing values twice drops nothing more. */
  lemma DropNAIdempotent(rows: seq<Row>, subset: set<Column>)
    ensures DropNA(DropNA(rows, subset), subset) == DropNA(rows, subset)
  {
    FilterIdempotent(rows, (x: Row) => Complete(x, subset));
  }

  /** Dropping missing values keeps a table whose rows are all complete as it is. */
  lemma DropNAOfComplete(rows: seq<Row>, subset: set<Column>)
    requires forall x :: x in rows ==> Complete(x, subset)
    ensures DropNA(rows, subset) == rows
  {
    FilterKeepsAll(rows, (x: Row) => Complete(x, subset));
  }

  /** Row `x` comes before row `y` in index order. */
  predicate LabelBefore(x: Row, y: Row)
  {
    x.index < y.index
  }

  /** The index labels increase down the table: the order `read_excel` produces. */
  ghost predicate LabelsIncreasing(rows: seq<Row>)
  {
    Ordered(rows, LabelBefore)
  }

  /** Dropping missing values keeps the surviving rows in their original order. */
  lemma DropNAKeepsOrder(rows: seq<Row>, subset: set<Column>)
    requires LabelsIncreasing(rows)
    ensures LabelsIncreasing(DropNA(rows, subset))
  {
    FilterKeepsOrder(rows, (x: Row) => Complete(x, subset), LabelBefore);
  }

  /** A row's platform text contains `p`, ignoring case; an empty cell never
      matches (`na=False`). */
  predicate Mentions(r: Row, p: string)
  {
    r.platform.Some? && Text.ContainsIgnoreCase(r.platform.value, p)
  }

  /** `df[df["Platform Used"].str.contains(p, case=False, na=False)]`. */
  function RowsMentioning(rows: seq<Row>, p: string): (r: seq<Row>)
    ensures forall x :: x in r <==> x in rows && Mentions(x, p)
    ensures |r| <= |rows|
  {
    Filter(rows, (x: Row) => Mentions(x, p))
  }

  lemma RowsMentioningKeepsOrder(rows: seq<Row>, p: string)
    requires LabelsIncreasing(rows)
    ensures LabelsIncreasing(RowsMentioning(rows, p))
  {
    FilterKeepsOrder(rows, (x: Row) => Mentions(x, p), LabelBefore);
  }

  // ---------------------------------------------------------------------------
  // The column parse: `df[col] = df[col].apply(parser)`, one cell at a time

  function WithFollowersParsed(r: Row): Row
  {
    r.(followers := ParseFollowers(r.followers))
  }

  function WithEngagementParsed(r: Row): Row
  {
    r.(engagement := ParseEngagementRate(r.engagement))
  }

  /** The table after both columns have been parsed. */
  function Parsed(rows: seq<Row>): seq<Row>
  {
    seq(|rows|, i requires 0 <= i < |rows| => WithEngagementParsed(WithFollowersParsed(rows[i])))
  }

  /** After parsing, no follower or engagement cell is text, each parsed cell is
      missing exactly when its text failed to parse, and nothing else in the row
      changes. */
  lemma ParsedCells(rows: seq<Row>, i: nat)
    requires i < |rows|
    ensures |Parsed(rows)| == |rows|
    ensures var p, r := Parsed(rows)[i], rows[i];
      && !p.followers.Str? && !p.engagement.Str?
      && (r.followers.Str? ==> (p.followers.NaN? <==> ParseFollowersText(r.followers.text).None?))
      && (r.engagement.Str? ==> (p.engagement.NaN? <==> ParseEngagementText(r.engagement.text).None?))
      && (!r.followers.Str? ==> p.followers == r.followers)
      && (!r.engagement.Str? ==> p.engagement == r.engagement)
      && p.(followers := r.followers, engagement := r.engagement) == r
  {
  }

  /** Parsing a table that holds no text in the two numeric columns changes
      nothing: the parsers pass non-text values through. */
  lemma ParsedOfParsed(rows: seq<Row>)
    requires forall x :: x in rows ==> !x.followers.Str? && !x.engagement.Str?
    ensures Parsed(rows) == rows
  {
    forall i | 0 <= i < |rows| ensures Parsed(rows)[i] == rows[i] {
      assert rows[i] in rows;
    }
  }

  /** `df[col] = df[col].apply(parser)`: `update` replaces the one cell of each
      row, and the column is rewritten in place, row after row. */
  method ApplyToColumn(df: array<Row>, update: Row -> Row)
    modifies df
    ensures forall i :: 0 <= i < df.Length ==> df[i] == update(old(df[i]))
  {
    for i := 0 to df.Length
      invariant forall j :: 0 <= j < i ==> df[j] == update(old(df[j]))
      invariant forall j :: i <= j < df.Length ==> df[j] == old(df[j])
    {
      df[i] := update(df[i]);
    }
  }

  /** The table held as a DataFrame, both numeric columns parsed in place: the
      step every script takes after reading the sheet. */
  method ParseColumns(rows: seq<Row>) returns (parsed: seq<Row>)
    ensures parsed == Parsed(rows)
  {
    var table := new Row[|rows|](i requires 0 <= i < |rows| => rows[i]);
    ApplyToColumn(table, WithFollowersParsed);
    ApplyToColumn(table, WithEngagementParsed);
    parsed := table[..];
  }

  // ---------------------------------------------------------------------------
  // reset_index(drop=True)

  /** The row with its index label replaced. */
  function Relabelled(r: Row, index: nat): Row
  {
    r.(index := index)
  }

  /** `df.reset_index(drop=True)`: the rows in the same order, labelled 0, 1, 2, ... */
  function ResetIndex(rows: seq<Row>): (r: seq<Row>)
    ensures |r| == |rows|
    ensures forall i :: 0 <= i < |r| ==> r[i].index == i && Relabelled(r[i], rows[i].index) == rows[i]
  {
    seq(|rows|, i requires 0 <= i < |rows| => Relabelled(rows[i], i))
  }
}
