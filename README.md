# Influencer recommendation: a Dafny model of the cleaning and selection pipeline

The repository is a small influencer-recommendation tool made of three Python
scripts over one spreadsheet of influencers:

- `app.py` is a dashboard. It loads the sheet and parses the follower counts ("1.2M",
  "750k", "~10000+") and engagement rates ("~4.5%") into numbers. It drops rows
  missing a required field and offers the recognised platforms found in the sheet.
  When the form is submitted, it filters by platform, category and country, scores
  the matches with a trained model and estimates each one's cost. It keeps the
  affordable ones, or all of them when none is affordable, and shows the three best.
- `train.py` cleans the same sheet the same way. It labels every row with a capped
  synthetic score and fits a regressor on the result.
- `dc.py` keeps only the Instagram rows and parses them. It drops rows whose numbers
  are missing and renumbers the rest.

The model is one set of definitions shared by the three scripts, in these modules:

- `Text` covers the Python string operations used: `strip`, `upper`, `lower`,
  `replace`, substring `in` and string `<`.
- `Decimal` covers `float()` on text, for plain decimal numerals. `float()` strips
  fewer characters than `str.strip()`: the control characters U+001C to U+001F count
  as whitespace for `strip()` but are not removed by `float()`.
- `Parsers` holds `parse_followers` and `parse_engagement_rate`, over a cell that is
  text, a number or NaN.
- `Frame` holds the sheet as a sequence of rows, plus the shared table steps:
  - the in-place column parse, as a loop over an array;
  - `dropna`;
  - the case-insensitive platform mask;
  - `reset_index(drop=True)`.
- `App`, `Train` and `Dc` hold one module per script.

The trained regressor is a parameter `score: Row -> real`. `np.log1p` is a parameter
`log1p: real -> real`. All arithmetic is on exact reals.

## Model

| member | source | states |
|---|---|---|
| Text.TrimLeftSpec | app.py:17 | Stripping from the left leaves a suffix of the text. That suffix does not start with a stripped character. Everything removed was one of the stripped characters. |
| Text.TrimRightSpec | app.py:17 | The same as TrimLeftSpec, from the right: a prefix that does not end with a stripped character. |
| Text.StripKeepsOthers | app.py:17 | `strip(chars)` never removes a character outside `chars`. |
| Text.StripBounds | app.py:34 | After `strip(chars)`, neither end of the text is in `chars`. Every character left comes from the input. |
| Text.StripUnchanged | app.py:34 | A text whose two ends are outside `chars` is returned unchanged. |
| Text.RemoveAll | app.py:17 | `replace(c, "")` leaves no `c`. It keeps every other character. |
| Text.RemoveAllAppend | app.py:17 | `replace(c, "")` on a concatenation is the concatenation of the two results. |
| Text.RemoveAllSingle | app.py:17 | On one character, `replace(c, "")` gives nothing for `c` and the character itself otherwise. With RemoveAllAppend, every other character stays, in its order and number. |
| Text.Occurs | app.py:57 | Substring `in` holds exactly when the pattern occurs at some position. |
| Text.ContainsPrefix | app.py:57 | A text contains its own prefix, ignoring case. |
| Decimal.RejectsForeignChar | app.py:18-26 | `float()` fails on any text that holds a character other than a digit, a point, a sign or whitespace. Examples are "1.2K" and "~100". |
| Decimal.DigitsRoundTrip | app.py:24 | The digits of `str(n)` denote `n`. |
| Decimal.ParseFloatOfDigits | app.py:24 | `float(str(n)) == n` for every natural number `n`. |
| Decimal.ParseFloatOfPointed | app.py:24 | `float("<d>.<f>")` is the whole part plus the fraction `f` denotes. |
| Decimal.ParseFloatOfTenths | app.py:24 | `float("a.b")` for single digits is `a + b/10`. |
| Parsers.ParseFollowers | app.py:15-27 | A non-string value is returned unchanged. A string never stays text. It becomes NaN exactly when its normalised text fails to parse, and otherwise becomes the parsed value. |
| Parsers.ParseEngagementRate | app.py:32-39 | The same contract as ParseFollowers, with the `~`/`%` strip in place of the follower normalisation. |
| Parsers.FollowersPlain | app.py:17-24 | A plain numeral reads as `float` of itself. |
| Parsers.FollowersMarked | app.py:19-22 | A numeral followed by M or m is scaled by 1,000,000. One followed by K or k is scaled by 1,000. |
| Parsers.FollowersApprox | app.py:17 | "~<n>+" reads as `<n>`. |
| Parsers.BothMarkersMissing | app.py:19-26 | Text holding both M and K after normalisation becomes missing. The M test comes first, and its remainder still holds a K. |
| Parsers.TildeInsideMissing | app.py:17-26 | A `~` left inside the normalised text makes the value missing. |
| Parsers.SpaceBeforeTilde | app.py:17 | " ~<n>" is missing. The space shields the `~` from the first strip. |
| Parsers.NormalizeControl | app.py:17 | A numeral followed by one of the control characters U+001C to U+001F and a marker survives normalisation intact, with the marker upper-cased: `strip()` removes only trailing whitespace, and the marker ends the text. |
| Parsers.ControlTailMissing | app.py:24-26 | `float()` fails on text ending in one of U+001C to U+001F: it does not strip them, although `str.isspace` accepts them. |
| Parsers.ControlBeforeMarkerMissing | app.py:17-26 | A numeral, one of U+001C to U+001F, then M/m/K/k becomes missing: the remainder before the marker ends in that control character. |
| Parsers.UnitSeparatorExample | app.py:17-26 | "5\x1fK" is missing. |
| Parsers.FollowersGrouped | app.py:17 | "a,b" reads as "ab": thousands separators are dropped. |
| Parsers.RateDecorated | app.py:34-36 | "~u%", "u%" and "u" all read as `float(u)`. |
| Parsers.RateSpacedPercent | app.py:34-36 | "u %" reads as `float(u)`. |
| Parsers.RateForeignMissing | app.py:35-38 | A rate holding a letter or other foreign character becomes missing. |
| Parsers.FollowersExamples | app.py:17-24 | "1.2M" is 1,200,000. "750k" and "750K" are 750,000. "1,200" is 1,200. "~10000+" is 10,000. " ~100" is missing. |
| Parsers.RateExamples | app.py:34-38 | "~4.5%" and "4.5 %" are 4.5. "abc" is missing. |
| Seqs.Filter | app.py:44 | A row mask keeps exactly the elements that pass, and never adds any. |
| Seqs.FilterAppend | app.py:44 | Masking distributes over concatenation. |
| Seqs.FilterKeepsAll | app.py:44 | A mask every row passes changes nothing. |
| Seqs.FilterIdempotent | app.py:44 | Masking twice is masking once. |
| Seqs.FilterKeepsOrder | app.py:44 | A mask keeps the relative order of the rows it keeps. |
| Frame.DropNA | app.py:44 | `dropna(subset)` keeps exactly the rows with no missing cell among `subset`. |
| Frame.DropNAIdempotent | app.py:44 | Dropping missing values twice is dropping them once. |
| Frame.DropNAOfComplete | app.py:44 | A table with no missing cell is kept whole. |
| Frame.DropNAKeepsOrder | app.py:44 | The surviving rows keep their order. |
| Frame.RowsMentioning | app.py:79 | The platform mask keeps exactly the rows whose platform text contains the name, ignoring case. An empty platform never matches. |
| Frame.RowsMentioningKeepsOrder | dc.py:8 | The platform mask keeps the rows in order. |
| Frame.ParsedCells | app.py:29-41 | After both column parses, no numeric cell is text. A cell is NaN exactly when its text failed to parse, non-text cells are unchanged, and the rest of the row is untouched. |
| Frame.ParsedOfParsed | app.py:27 | Parsing a table that is already parsed changes nothing. |
| Frame.ApplyToColumn | app.py:29 | The in-place column `apply` rewrites every row with the parser, and changes nothing else. |
| Frame.ParseColumns | app.py:29-41 | The two in-place column parses give the parsed table. |
| Frame.ResetIndex | dc.py:40 | `reset_index(drop=True)` keeps the rows and their order and labels them 0, 1, 2, ... |
| App.CompleteIsUsable | app.py:44 | For a parsed row, having the five required columns means both numbers parsed and the three text fields are present. |
| App.CleanedRows | app.py:44 | The cleaned table holds exactly the parsed rows that are usable. |
| App.LoadData | app.py:11-46 | `load_data` returns the cleaned table. Every row in it has both numbers and all text fields. |
| App.CleaningIdempotent | app.py:44 | Cleaning a cleaned table changes nothing. |
| App.CleaningKeepsOrder | app.py:44 | Cleaning keeps the rows in their original order. |
| App.MajorSortedAscending | app.py:52-60 | The four platform names, in Python's string order, are strictly ascending and are the same four names. |
| App.FoundInSpec | app.py:53-58 | A platform is found exactly when it is one of the four and some row mentions it, ignoring case. |
| App.SortedPlatforms | app.py:60 | `sorted(found)` is strictly ascending, holds exactly the found names, and has at most four. |
| App.ExtractPlatforms | app.py:51-60 | The list starts with "All" and has at most 5 entries. The rest is strictly ascending, so it has no duplicates. A recognised platform appears exactly when some row's platform text contains it, ignoring case. |
| App.EstimatedCost | app.py:92 | The cost is followers/100, and is not negative for a non-negative count. |
| App.ByCategoryCountry | app.py:82 | It keeps exactly the rows whose category and country equal the chosen ones. |
| App.Matches | app.py:75-82 | Filtering is sound and complete: a row survives exactly when it passes the platform test (unless "All"), the category test and the country test. |
| App.Scored | app.py:88-92 | Each matching row gets its model score and its cost, and no candidate is invented. |
| App.Affordable | app.py:95 | The budget mask keeps exactly the candidates whose cost is at most the budget. |
| App.InsertByScore | app.py:99-101 | Inserting into a descending sequence keeps it descending, with the same elements plus the new one. |
| App.SortByScore | app.py:99-101 | `sort_values("Score", ascending=False)` is descending and a permutation. |
| App.Take | app.py:99-101 | `head(k)` is the first `min(k, n)` elements. |
| App.HeadIsTopK | app.py:99-101 | The head of any descending arrangement of the pool is a best-k choice. |
| App.TakeSortedIsTopK | app.py:99-101 | Sorting and then taking the head gives a best-k choice. |
| App.NoneAffordable | app.py:95-97 | Nothing is within budget exactly when every matching row costs more than the budget. |
| App.PoolMembers | app.py:95-101 | The ranked pool is the scored matches. These are only the affordable ones, unless no match is affordable. |
| App.Rank | app.py:87-101 | The result is relaxed exactly when no match is affordable. It is a best-3 choice from the pool, with 1 to 3 entries. Every entry is a scored match, within budget unless relaxed. |
| App.Recommend | app.py:74-101 | The result is "no results" exactly when no row passes the filters. Otherwise it is relaxed exactly when every match is over budget. The top is a best-3 choice from the pool, with 1 to 3 entries. Each entry passes the filters, carries its score and cost, and is within budget unless relaxed. |
| App.TwoPointFiveMillion | app.py:19-20 | "2.5M" is 2,500,000. |
| App.ThreePointTwoPercent | app.py:34-36 | "3.2%" is 3.2. |
| App.BeautyExample | app.py:15-95 | An Instagram/TikTok beauty influencer in the US with "2.5M" followers and a "3.2%" rate survives cleaning. It passes the Instagram/Beauty/US filters and costs 25,000. |
| Train.GenerateScore | train.py:47-49 | The label never exceeds 100. It equals the raw formula when that is at most 100, and is 100 otherwise. |
| Train.ScoreColumn | train.py:51 | The row-wise `apply` labels every row with `generate_score`, and every label is at most 100. |
| Train.PrepareTrainingData | train.py:30-56 | The training table is exactly the dashboard's cleaned table, and every label is the capped score. |
| Dc.CompleteIsNumeric | dc.py:40 | For a parsed row, having both numeric columns means both numbers parsed. |
| Dc.InstagramRowsSpec | dc.py:8-40 | The kept rows are exactly the parsed Instagram rows with both numbers. Every one mentions Instagram, ignoring case. |
| Dc.CleanInstagram | dc.py:8-40 | The cleaned table is the kept rows relabelled 0..n-1. Every row mentions Instagram and has both numbers. |
| Dc.CleaningKeepsOrder | dc.py:40 | The kept rows keep the relative order they had in the sheet, and each cleaned row is its kept row relabelled. |
| Dc.KeepsRowsTheDashboardDrops | dc.py:40 | An Instagram row with both numbers but no category or country is kept by dc.py and dropped by the dashboard. |

`parse_followers` and `parse_engagement_rate` are defined once, in `Parsers`. Their
copies at train.py:16-40 and dc.py:11-35 are character-for-character the same code,
with one exception: dc.py:21 catches only `ValueError`. `float()` on a string raises
nothing else, so the two copies agree on every input. Every row above that cites
app.py:15-39 therefore also describes train.py:16-40 and dc.py:11-35.

## Left out

- The Streamlit UI is not modelled: the title, the form, the select boxes, the slider, the warnings, the table display and `st.cache_data`. Platform, category, country and budget are plain inputs.
- Reading the sheet, `joblib.load` / `joblib.dump` and `print` are I/O and are not modelled. The sheet is the input sequence of rows.
- The regressor is a parameter `score: Row -> real`. This covers the pipeline, `OneHotEncoder`, `ColumnTransformer`, `RandomForestRegressor`, `train_test_split` and `fit` (train.py:59-73, app.py:89). The selection of `X` and `y` (train.py:54-56) is not modelled beyond the labels.
- Train.GenerateScore: `np.log1p` is a parameter, and all arithmetic is on exact reals. IEEE rounding is not modelled. Neither is the NaN that `log1p` gives for a follower count below -1: `float()` accepts "-5", and such a row gets a NaN label in the source.
- Decimal.ParseFloatOfPointed: `float()` is modelled for optional surrounding whitespace, an optional sign and digits with at most one point. Exponents, "inf"/"nan", underscores and non-ASCII digits are rejected here, although Python accepts them.
- Text.Occurs: `upper()` and `lower()` map ASCII letters only. Python's full Unicode case mapping is not modelled.
- Frame.RowsMentioning: pandas `str.contains` interprets its pattern as a regular expression. The model searches for the literal text. The two agree on the four platform names and on "Instagram", none of which holds a regex metacharacter.
- App.Recommend: the order among candidates of equal score is not fixed, because pandas' default sort is not stable. The contract promises a best-3 choice in descending order.
- App.ExtractPlatforms: requires every row to have a platform. The source calls `.lower()` on each value and would fail on NaN. It is only ever called on the cleaned table.
- The select-box contents `sorted(df["Category"].unique())` and `sorted(df["Country"].unique())` (app.py:69-70) are UI and are not modelled.
