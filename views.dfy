/** list_workflows (workflows/views.py): filter the rows by platform and country ignoring case,
    order them by descending popularity_score and keep the first min(limit, 1000). */
module Views {
  import opened Common
  import opened Models

  const DefaultLimit: int := 100
  const MaxLimit: int := 1000

  // ------------------------------------------------------------ case-insensitive match

  /** ASCII lower-casing, the folding the iexact lookup applies. */
  function Lower(c: char): (lowered: char)
  {
    if 'A' <= c <= 'Z' then (c as int - 'A' as int + 'a' as int) as char else c
  }

  function ToLower(s: string): (lowered: string)
  {
    seq(|s|, i requires 0 <= i < |s| => Lower(s[i]))
  }

  /** A filter applies only when given and non-empty; then it must equal the field ignoring case. */
  predicate Matches(field: string, filter: Option<string>)
  {
    filter.None? || filter.value == "" || ToLower(field) == ToLower(filter.value)
  }

  predicate Selected(w: Workflow, platform: Option<string>, country: Option<string>)
  {
    Matches(w.key.platform, platform) && Matches(w.key.country, country)
  }

  lemma MatchesIgnoresCase()
    ensures Matches("YouTube", Some("youtube")) && Matches("GoogleTrends", Some("GOOGLETRENDS"))
    ensures Matches("IN", Some("in")) && !Matches("IN", Some("US"))
  {
    assert ToLower("YouTube") == "youtube" == ToLower("youtube");
    assert ToLower("GoogleTrends") == "googletrends" == ToLower("GOOGLETRENDS");
    assert ToLower("IN") == "in" == ToLower("in");
    assert ToLower("IN")[0] != ToLower("US")[0];
  }

  /** Filters that agree ignoring case select the same fields. */
  lemma MatchesFoldsCase(field: string, f: string, g: string)
    requires ToLower(f) == ToLower(g)
    ensures Matches(field, Some(f)) <==> Matches(field, Some(g))
  {
    assert |f| == |ToLower(f)| == |ToLower(g)| == |g|;
  }

  /** The rows the two .filter() calls keep, in table order. */
  function Filtered(rows: seq<Workflow>, platform: Option<string>, country: Option<string>): (kept: seq<Workflow>)
  {
    if |rows| == 0 then []
    else (if Selected(rows[0], platform, country) then [rows[0]] else [])
         + Filtered(rows[1..], platform, country)
  }

  /** Filtering keeps exactly the selected rows, each as often as the table holds it. */
  lemma {:induction false} FilteredExact(rows: seq<Workflow>, platform: Option<string>, country: Option<string>)
    ensures forall w :: w in Filtered(rows, platform, country) <==> w in rows && Selected(w, platform, country)
    ensures forall w :: Selected(w, platform, country) ==>
              multiset(Filtered(rows, platform, country))[w] == multiset(rows)[w]
    ensures forall w :: !Selected(w, platform, country) ==> multiset(Filtered(rows, platform, country))[w] == 0
  {
    if |rows| > 0 {
      FilteredExact(rows[1..], platform, country);
      assert rows == [rows[0]] + rows[1..];
      assert multiset(rows) == multiset{rows[0]} + multiset(rows[1..]);
    }
  }

  /** An absent or empty filter filters nothing. */
  lemma {:induction false} NoFilterKeepsAll(rows: seq<Workflow>, platform: Option<string>, country: Option<string>)
    requires platform.None? || platform == Some("")
    requires country.None? || country == Some("")
    ensures Filtered(rows, platform, country) == rows
  {
    if |rows| > 0 {
      NoFilterKeepsAll(rows[1..], platform, country);
      assert [rows[0]] + rows[1..] == rows;
    }
  }

  // ------------------------------------------------------------ order_by("-popularity_score")

  /** Each row scores at least as much as the next one. */
  predicate SortedByScore(s: seq<Workflow>)
  {
    forall i :: 0 < i < |s| ==> s[i - 1].score >= s[i].score
  }

  /** In a sorted sequence every row scores at least as much as every later one. */
  lemma {:induction false} SortedAllPairs(s: seq<Workflow>)
    requires SortedByScore(s)
    ensures forall i, j :: 0 <= i < j < |s| ==> s[i].score >= s[j].score
  {
    if |s| > 1 {
      SortedAllPairs(s[1..]);
      forall i, j | 0 <= i < j < |s| ensures s[i].score >= s[j].score {
        if i > 0 {
          assert s[1..][i - 1] == s[i] && s[1..][j - 1] == s[j];
        } else if j > 1 {
          assert s[1..][0] == s[1] && s[1..][j - 1] == s[j];
        }
      }
    }
  }

  function Insert(w: Workflow, s: seq<Workflow>): (r: seq<Workflow>)
    requires SortedByScore(s)
    ensures SortedByScore(r)
    ensures multiset(r) == multiset(s) + multiset{w}
    ensures |r| > 0 && (r[0] == w || (|s| > 0 && r[0] == s[0]))
  {
    if |s| == 0 then [w]
    else if w.score >= s[0].score then [w] + s
    else
      assert s == [s[0]] + s[1..];
      [s[0]] + Insert(w, s[1..])
  }

  /** The rows in non-increasing score order; rows of equal score keep their table order. */
  function SortByScore(s: seq<Workflow>): (r: seq<Workflow>)
    ensures SortedByScore(r)
    ensures multiset(r) == multiset(s)
  {
    if |s| == 0 then []
    else
      assert s == [s[0]] + s[1..];
      Insert(s[0], SortByScore(s[1..]))
  }

  /** The first k rows of a sorted sequence are sorted, and every row left out scores at most as
      much as every row kept. */
  lemma PrefixOfSorted(ordered: seq<Workflow>, k: nat)
    requires SortedByScore(ordered) && k <= |ordered|
    ensures SortedByScore(ordered[..k])
    ensures multiset(ordered[..k]) <= multiset(ordered)
    ensures forall w, v :: w in ordered[..k] && v in multiset(ordered) - multiset(ordered[..k]) ==> v.score <= w.score
  {
    SortedAllPairs(ordered);
    assert ordered == ordered[..k] + ordered[k..];
    assert multiset(ordered) == multiset(ordered[..k]) + multiset(ordered[k..]);
    forall w, v | w in ordered[..k] && v in multiset(ordered) - multiset(ordered[..k])
      ensures v.score <= w.score
    {
      assert v in multiset(ordered[k..]);
      var i :| 0 <= i < k && ordered[i] == w;
      var j :| 0 <= j < |ordered[k..]| && ordered[k..][j] == v;
      assert ordered[k + j] == v;
    }
  }

  // ------------------------------------------------------------ int(limit)

  predicate IsDigit(c: char) { '0' <= c <= '9' }

  predicate AllDigits(s: string)
  {
    forall i :: 0 <= i < |s| ==> IsDigit(s[i])
  }

  function DigitValue(c: char): (d: nat)
    requires IsDigit(c)
  {
    c as int - '0' as int
  }

  /** The value of a string of decimal digits. */
  function DigitsValue(s: string): (n: nat)
    requires AllDigits(s)
  {
    if |s| == 0 then 0
    else DigitsValue(s[..|s| - 1]) * 10 + DigitValue(s[|s| - 1])
  }

  /** int() of a query-string value: an optional sign, then one or more decimal digits. */
  function ParseInt(s: string): (r: Result<int>)
  {
    var signed := |s| > 0 && (s[0] == '-' || s[0] == '+');
    var digits := if signed then s[1..] else s;
    if |digits| == 0 || !AllDigits(digits) then Err(NotAnInteger)
    else if s[0] == '-' then Ok(-(DigitsValue(digits) as int))
    else Ok(DigitsValue(digits))
  }

  /** str() of a natural number. */
  function Digits(n: nat): (s: string)
    ensures |s| > 0 && AllDigits(s)
  {
    if n < 10 then [(n + '0' as int) as char]
    else Digits(n / 10) + [(n % 10 + '0' as int) as char]
  }

  function IntToString(n: int): (s: string)
  {
    if n < 0 then "-" + Digits(-n) else Digits(n)
  }

  lemma {:induction false} DigitsRoundTrip(n: nat)
    ensures DigitsValue(Digits(n)) == n
  {
    if n >= 10 {
      DigitsRoundTrip(n / 10);
      var s := Digits(n);
      assert s[..|s| - 1] == Digits(n / 10);
    }
  }

  /** int(str(n)) == n: every integer written in decimal is a valid limit. */
  lemma ParseIntRoundTrip(n: int)
    ensures ParseInt(IntToString(n)) == Ok(n)
  {
    var s := IntToString(n);
    if n < 0 {
      var d := Digits(-n);
      DigitsRoundTrip(-n);
      assert s == "-" + d && s[0] == '-' && s[1..] == d;
      assert ParseInt(s) == Ok(-(DigitsValue(d) as int));
    } else {
      var d := Digits(n);
      DigitsRoundTrip(n);
      assert s == d && IsDigit(s[0]);
      assert ParseInt(s) == Ok(DigitsValue(d));
    }
  }

  /** A value holding a character other than a digit after the sign makes int() raise. */
  lemma NonDigitIsNotAnInteger(s: string, k: nat)
    requires 0 < k < |s| && !IsDigit(s[k])
    ensures ParseInt(s) == Err(NotAnInteger)
  {
    var signed := |s| > 0 && (s[0] == '-' || s[0] == '+');
    var digits := if signed then s[1..] else s;
    var j := if signed then k - 1 else k;
    assert digits[j] == s[k];
    assert !AllDigits(digits);
  }

  // ------------------------------------------------------------ the view

  /** The limit query parameter: 100 when absent, otherwise int() of its value. */
  function LimitOf(limit: Option<string>): (r: Result<int>)
  {
    if limit.None? then Ok(DefaultLimit) else ParseInt(limit.value)
  }

  /** list_workflows over a snapshot of the table's rows. */
  function ListWorkflows(rows: seq<Workflow>, platform: Option<string>, country: Option<string>,
                         limit: Option<string>): (r: Result<seq<Workflow>>)
  {
    var n :- LimitOf(limit);
    var bound := Min(n, MaxLimit);
    if bound < 0 then Err(NegativeSlice)
    else Ok(TopRows(Filtered(rows, platform, country), bound))
  }

  /** The first `bound` rows of `matching` by descending score. */
  function TopRows(matching: seq<Workflow>, bound: nat): (top: seq<Workflow>)
  {
    var ordered := SortByScore(matching);
    ordered[..Min(bound, |ordered|)]
  }

  lemma TopRowsContract(matching: seq<Workflow>, bound: nat)
    ensures var r := TopRows(matching, bound);
            && |r| == Min(bound, |matching|)
            && SortedByScore(r)
            && multiset(r) <= multiset(matching)
            && (|matching| <= bound ==> multiset(r) == multiset(matching))
            && (forall w, v :: w in r && v in multiset(matching) - multiset(r) ==> v.score <= w.score)
  {
    var ordered := SortByScore(matching);
    assert |ordered| == |multiset(ordered)| == |multiset(matching)| == |matching|;
    var k := Min(bound, |ordered|);
    PrefixOfSorted(ordered, k);
    if |matching| <= bound {
      assert ordered[..k] == ordered;
    }
  }

  /** The view raises exactly for a limit that is not an integer or is negative. */
  lemma ListWorkflowsFaults(rows: seq<Workflow>, platform: Option<string>, country: Option<string>,
                            limit: Option<string>)
    ensures var r := ListWorkflows(rows, platform, country, limit);
            && (r.Err? <==> LimitOf(limit).Err? || LimitOf(limit).value < 0)
            && (LimitOf(limit).Err? ==> r == Err(NotAnInteger))
            && (LimitOf(limit).Ok? && LimitOf(limit).value < 0 ==> r == Err(NegativeSlice))
  {
  }

  /** What the view returns: min(limit, 1000, number of matches) rows, by non-increasing score, each from the
      table and matching the filters; all matching rows when they fit; and no matching row left
      out scores above a returned one. */
  lemma ListWorkflowsContract(rows: seq<Workflow>, platform: Option<string>, country: Option<string>,
                              limit: Option<string>)
    requires ListWorkflows(rows, platform, country, limit).Ok?
    ensures var r := ListWorkflows(rows, platform, country, limit).value;
            var matching := Filtered(rows, platform, country);
            var bound := Min(LimitOf(limit).value, MaxLimit);
            && |r| == Min(bound, |matching|)
            && SortedByScore(r)
            && (forall w :: w in r ==> w in rows && Selected(w, platform, country))
            && multiset(r) <= multiset(matching)
            && (|matching| <= bound ==> multiset(r) == multiset(matching))
            && (forall w, v :: w in r && v in multiset(matching) - multiset(r) ==> v.score <= w.score)
  {
    var r := ListWorkflows(rows, platform, country, limit).value;
    var matching := Filtered(rows, platform, country);
    TopRowsContract(matching, Min(LimitOf(limit).value, MaxLimit));
    FilteredExact(rows, platform, country);
    forall w | w in r ensures w in rows && Selected(w, platform, country) {
      assert w in multiset(r);
    }
  }

  /** Without a limit parameter at most 100 rows come back; "ten" is refused. */
  lemma ListWorkflowsDefaults(rows: seq<Workflow>, platform: Option<string>, country: Option<string>)
    ensures ListWorkflows(rows, platform, country, None).Ok?
    ensures |ListWorkflows(rows, platform, country, None).value| <= DefaultLimit
    ensures ListWorkflows(rows, platform, country, Some("ten")) == Err(NotAnInteger)
  {
    ListWorkflowsFaults(rows, platform, country, None);
    ListWorkflowsContract(rows, platform, country, None);
    NonDigitIsNotAnInteger("ten", 1);
  }
}
