/**
 * One news item as the upstream API returns it, and the date line that the
 * results page shows for it.
 */
module Articles {
  import opened Wrappers
  import opened Strconv

  /** A calendar month as `time.Month` numbers it. */
  type Month = m: int | 1 <= m <= 12 witness 1

  /** A day of the month as `time.Time.Date` returns it. */
  type Day = d: int | 1 <= d <= 31 witness 1

  /** The calendar date of `PublishedAt`, in the timestamp's own location. */
  datatype Date = Date(year: int, month: Month, day: Day)

  /** The upstream source; its identifier may be a string or absent. */
  datatype Source = Source(id: Option<string>, name: string)

  datatype Article = Article(
    source: Source,
    author: string,
    title: string,
    description: string,
    url: string,
    urlToImage: string,
    publishedAt: Date,
    content: string)

  predicate IsLetter(c: char) {
    'A' <= c <= 'Z' || 'a' <= c <= 'z'
  }

  /** The English month name that `time.Month`'s String method gives. */
  function MonthName(m: Month): (name: string)
    ensures |name| >= 3 && 'A' <= name[0] <= 'Z'
    ensures forall i :: 0 <= i < |name| ==> IsLetter(name[i])
  {
    match m
    case 1 => "January"
    case 2 => "February"
    case 3 => "March"
    case 4 => "April"
    case 5 => "May"
    case 6 => "June"
    case 7 => "July"
    case 8 => "August"
    case 9 => "September"
    case 10 => "October"
    case 11 => "November"
    case 12 => "December"
  }

  /** Twelve different names for twelve months. */
  lemma MonthNameInjective(m1: Month, m2: Month)
    requires MonthName(m1) == MonthName(m2)
    ensures m1 == m2
  {
  }

  /**
   * `fmt.Sprintf("%v %d, %d", month, day, year)`: the full month name, a
   * space, the day without zero padding, a comma and a space, the year.
   */
  function FormatPublishedDate(a: Article): (r: string)
    ensures var name := MonthName(a.publishedAt.month);
      |r| > |name| && r[..|name|] == name && r[|name|] == ' '
    ensures var year := Itoa(a.publishedAt.year);
      |r| > |year| + 2 && r[|r| - |year| - 2..] == ", " + year
    ensures var name, year := MonthName(a.publishedAt.month), Itoa(a.publishedAt.year);
      |name| + 1 < |r| - |year| - 2 &&
      var day := r[|name| + 1..|r| - |year| - 2];
      AllDigits(day) && day[0] != '0' && ParseDecimal(day) == Some(a.publishedAt.day)
  {
    var d := a.publishedAt;
    LayoutSlices(MonthName(d.month), Itoa(d.day), Itoa(d.year));
    ParseDecimalOfItoa(d.day);
    DateLine(d)
  }

  /** The text `fmt.Sprintf("%v %d, %d", month, day, year)` produces for a date. */
  function DateLine(d: Date): string {
    MonthName(d.month) + " " + Itoa(d.day) + ", " + Itoa(d.year)
  }

  /** Where the three parts of a date line sit in it. */
  lemma LayoutSlices(name: string, day: string, year: string)
    ensures var r := name + " " + day + ", " + year;
      |r| == |name| + |day| + |year| + 3 &&
      r[..|name|] == name && r[|name|] == ' ' &&
      r[|r| - |year| - 2..] == ", " + year &&
      r[|name| + 1..|r| - |year| - 2] == day
  {
    var r := name + " " + day + ", " + year;
    assert r == name + ([' '] + day + [',', ' '] + year);
  }

  /**
   * Splitting at the first occurrence of a separator that neither head
   * contains recovers both heads and both tails.
   */
  lemma SplitAtSeparator(a1: string, b1: string, a2: string, b2: string, c: char)
    requires c !in a1 && c !in a2
    requires a1 + [c] + b1 == a2 + [c] + b2
    ensures a1 == a2 && b1 == b2
  {
    var s := a1 + [c] + b1;
    assert s[|a1|] == c;
    assert forall k :: 0 <= k < |a1| ==> s[k] == a1[k] != c;
    assert s[|a2|] == c;
    assert forall k :: 0 <= k < |a2| ==> s[k] == a2[k] != c;
    assert |a1| == |a2|;
    assert a1 == s[..|a1|] == a2;
    assert b1 == s[|a1| + 1..] == b2;
  }

  /** The date line as three parts split by the separators that none of them contains. */
  lemma DateLineParts(d: Date)
    ensures DateLine(d) == MonthName(d.month) + [' '] + (Itoa(d.day) + [','] + ([' '] + Itoa(d.year)))
  {
  }

  /** The date line determines the date: different publication dates never look the same. */
  lemma DateLineInjective(d1: Date, d2: Date)
    requires DateLine(d1) == DateLine(d2)
    ensures d1 == d2
  {
    var y1, y2 := [' '] + Itoa(d1.year), [' '] + Itoa(d2.year);
    var t1, t2 := Itoa(d1.day) + [','] + y1, Itoa(d2.day) + [','] + y2;
    DateLineParts(d1);
    DateLineParts(d2);
    SplitAtSeparator(MonthName(d1.month), t1, MonthName(d2.month), t2, ' ');
    MonthNameInjective(d1.month, d2.month);
    SplitAtSeparator(Itoa(d1.day), y1, Itoa(d2.day), y2, ',');
    ItoaInjective(d1.day, d2.day);
    assert Itoa(d1.year) == y1[1..] && Itoa(d2.year) == y2[1..];
    ItoaInjective(d1.year, d2.year);
  }

  /** 5 March 2021 is shown as "March 5, 2021". */
  lemma FormatPublishedDateExample(a: Article)
    requires a.publishedAt == Date(2021, 3, 5)
    ensures FormatPublishedDate(a) == "March 5, 2021"
  {
  }
}
