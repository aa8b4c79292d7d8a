/** `getTrendingRepos` of the server: one record per repository row of the
    GitHub trending page. What the page's selectors extract from a row is
    the input here; the request and the parsing of the page are not
    modelled. */
module GithubTrends {
  import opened Wrappers
  import opened Lists
  import opened JsString

  const GithubOrigin := "https://github.com"

  /** The texts the selectors pick out of one `article.Box-row`: the
      heading, the link's `href` attribute (absent when the row has no
      link), the description, the language and the first star link. A
      selector that matches nothing yields the empty text. */
  datatype RepoRow = RepoRow(
    heading: string,
    href: Option<string>,
    descriptionText: string,
    languageText: string,
    starsText: string)

  datatype Repo = Repo(name: string, url: string, description: string, language: string, stars: int)

  /** `parseInt(text.trim().replace(',', ''), 10) || 0`: only the first
      comma is removed; an unreadable count, `NaN`, becomes 0. */
  function StarCount(text: string): (stars: int)
  {
    match ParseInt(RemoveFirst(Trim(text), ','))
    case None => 0
    case Some(v) => v
  }

  /** `${undefined}` renders as the text "undefined". */
  function HrefText(href: Option<string>): string
  {
    if href.Some? then href.value else "undefined"
  }

  /** The heading without any whitespace, as `.replace(/\s+/g, '')`. */
  function NameOf(heading: string): (name: string)
  {
    RemoveWhitespace(Trim(heading))
  }

  /** The record built from one row. */
  function RepoOf(row: RepoRow): (repo: Repo)
  {
    Repo(
      NameOf(row.heading),
      GithubOrigin + HrefText(row.href),
      Trim(row.descriptionText),
      Trim(row.languageText),
      StarCount(row.starsText))
  }

  /** The `each` loop: one record pushed per row, in page order. */
  method GetTrendingRepos(rows: seq<RepoRow>) returns (repos: seq<Repo>)
    ensures repos == Map(rows, RepoOf)
    ensures |repos| == |rows|
    ensures forall i :: 0 <= i < |rows| ==> repos[i] == RepoOf(rows[i])
  {
    repos := [];
    var i := 0;
    while i < |rows|
      invariant 0 <= i <= |rows|
      invariant repos == Map(rows[..i], RepoOf)
    {
      assert rows[..i + 1][..i] == rows[..i];
      repos := repos + [RepoOf(rows[i])];
      i := i + 1;
    }
    assert rows[..i] == rows;
    MapIndex(rows, RepoOf);
  }

  /** The name holds no whitespace and keeps every other character of the
      heading, in order. */
  lemma NameShape(heading: string)
    ensures forall i :: 0 <= i < |NameOf(heading)| ==> !IsWhitespace(NameOf(heading)[i])
    ensures IsSubsequence(NameOf(heading), Trim(heading))
    ensures forall c :: !IsWhitespace(c) ==> Count(NameOf(heading), c) == Count(heading, c)
  {
    var t := Trim(heading);
    RemoveWhitespaceShape(t);
    forall c | !IsWhitespace(c) ensures Count(t, c) == Count(heading, c) {
      TrimCount(heading, c);
    }
  }

  /** Trimming removes whitespace only. */
  lemma TrimCount(s: string, c: char)
    requires !IsWhitespace(c)
    ensures Count(Trim(s), c) == Count(s, c)
  {
    TrimStartCount(s, c);
    TrimEndCount(TrimStart(s), c);
  }

  lemma TrimStartCount(s: string, c: char)
    requires !IsWhitespace(c)
    ensures Count(TrimStart(s), c) == Count(s, c)
  {
    var t := TrimStart(s);
    var b := s[..|s| - |t|];
    assert s == b + t;
    BlankCount(b, c);
    CountConcat(b, t, c);
  }

  lemma TrimEndCount(s: string, c: char)
    requires !IsWhitespace(c)
    ensures Count(TrimEnd(s), c) == Count(s, c)
  {
    var t := TrimEnd(s);
    var b := s[|t|..];
    assert s == t + b;
    BlankCount(b, c);
    CountConcat(t, b, c);
  }

  lemma {:induction false} BlankCount(s: string, c: char)
    requires IsBlank(s) && !IsWhitespace(c)
    ensures Count(s, c) == 0
  {
    if s != [] {
      assert IsBlank(s[..|s| - 1]);
      BlankCount(s[..|s| - 1], c);
    }
  }

  /** The link lies under the GitHub origin; a row without a link gives the
      origin followed by the text "undefined". */
  lemma UrlShape(href: Option<string>)
    ensures StartsWith(GithubOrigin + HrefText(href), GithubOrigin)
    ensures href.None? ==> GithubOrigin + HrefText(href) == "https://github.comundefined"
  {
    var url := GithubOrigin + HrefText(href);
    assert url[..|GithubOrigin|] == GithubOrigin;
  }

  // ---------------------------------------------------------------------
  // The star count

  /** A count written as digits only is the value of those digits. */
  lemma StarCountDigits(d: string)
    requires AllDigits(d) && d != []
    ensures StarCount(d) == DigitsValue(d)
  {
    assert IsDigit(d[0]) && IsDigit(d[|d| - 1]);
    TrimIdentity(d);
    NoCommaInDigits(d);
    assert RemoveFirst(Trim(d), ',') == d;
    assert TrimStart(d) == d;
    LeadingAllDigits(d);
  }

  lemma NoCommaInDigits(d: string)
    requires AllDigits(d)
    ensures ',' !in d
  {
    forall i | 0 <= i < |d| ensures d[i] != ',' {
      assert IsDigit(d[i]);
    }
  }

  /** A plainly written count is read back. */
  lemma StarCountDecimal(n: nat)
    ensures StarCount(Decimal(n)) == n
  {
    StarCountDigits(Decimal(n));
    DecimalRoundTrip(n);
  }

  /** A count with one thousands separator is read in full. */
  lemma StarCountOneComma(a: string, b: string)
    requires AllDigits(a) && AllDigits(b) && a != [] && b != []
    ensures StarCount(a + "," + b) == DigitsValue(a + b)
  {
    CommaCount(a, b, []);
    assert a + "," + b + [] == a + "," + b;
  }

  /** With two separators the first comma is the only one removed, and the
      count stops at the second: `"1,234,567"` is read as 1234. */
  lemma StarCountTwoCommas(a: string, b: string, c: string)
    requires AllDigits(a) && AllDigits(b) && AllDigits(c) && a != [] && b != [] && c != []
    ensures StarCount(a + "," + b + ("," + c)) == DigitsValue(a + b)
  {
    CommaCount(a, b, "," + c);
  }

  /** The count of `a,b` followed by text that starts with a comma. */
  lemma CommaCount(a: string, b: string, rest: string)
    requires AllDigits(a) && AllDigits(b) && a != [] && b != []
    requires rest == [] || (rest[0] == ',' && !IsWhitespace(rest[|rest| - 1]))
    ensures StarCount(a + "," + b + rest) == DigitsValue(a + b)
  {
    var s := a + "," + b + rest;
    var u := (a + b) + rest;
    assert s == a + [','] + (b + rest);
    assert a + (b + rest) == u;
    AllDigitsConcat(a, b);
    ParseIntDigitsThen(a + b, rest);
    NoCommaInDigits(a);
    RemoveFirstAt(a, b + rest, ',');
    CommaTextTrimmed(a, b, rest);
    assert Trim(s) == s && RemoveFirst(s, ',') == u;
  }

  lemma AllDigitsConcat(a: string, b: string)
    requires AllDigits(a) && AllDigits(b)
    ensures AllDigits(a + b)
  {
    assert forall i :: 0 <= i < |b| ==> (a + b)[|a| + i] == b[i];
  }

  lemma CommaTextTrimmed(a: string, b: string, rest: string)
    requires AllDigits(a) && AllDigits(b) && a != [] && b != []
    requires rest == [] || (rest[0] == ',' && !IsWhitespace(rest[|rest| - 1]))
    ensures Trim(a + "," + b + rest) == a + "," + b + rest
  {
    var s := a + "," + b + rest;
    assert IsDigit(a[0]) && IsDigit(b[|b| - 1]);
    assert s[0] == a[0];
    assert s[|s| - 1] == if rest == [] then b[|b| - 1] else rest[|rest| - 1];
    TrimIdentity(s);
  }

  /** `replace` removes the first occurrence of the character. */
  lemma RemoveFirstAt(a: string, b: string, c: char)
    requires c !in a
    ensures RemoveFirst(a + [c] + b, c) == a + b
  {
    var s := a + [c] + b;
    assert s[|a|] == c && s[..|a|] == a;
    FirstIndexAt(s, c, |a|);
    assert s[|a| + 1..] == b;
  }

  /** `parseInt` of digits followed by a non-digit reads the digits. */
  lemma ParseIntDigitsThen(d: string, rest: string)
    requires AllDigits(d) && d != []
    requires rest == [] || !IsDigit(rest[0])
    ensures ParseInt(d + rest) == Some(DigitsValue(d))
  {
    var u := d + rest;
    assert u[0] == d[0] && IsDigit(d[0]);
    ParseIntDigitLed(u);
    LeadingDigitsBefore(d, rest);
  }

  /** The leading digits of a digit string followed by a non-digit are that
      digit string. */
  lemma {:induction false} LeadingDigitsBefore(d: string, rest: string)
    requires AllDigits(d)
    requires rest == [] || !IsDigit(rest[0])
    ensures LeadingDigits(d + rest) == d
  {
    if d != [] {
      assert (d + rest)[1..] == d[1..] + rest;
      LeadingDigitsBefore(d[1..], rest);
    } else {
      assert d + rest == rest;
    }
  }

  predicate NoDigits(s: string)
  {
    forall i :: 0 <= i < |s| ==> !IsDigit(s[i])
  }

  /** A text without any digit counts zero stars. */
  lemma StarCountNoDigits(text: string)
    requires NoDigits(text)
    ensures StarCount(text) == 0
  {
    TrimNoDigits(text);
    var u := RemoveFirst(Trim(text), ',');
    RemoveFirstNoDigits(Trim(text));
    ParseIntNoDigits(u);
  }

  /** Text whose trimmed form starts with anything but a digit, a sign or
      a comma counts no stars, whatever digits follow: `"abc12"` gives 0. */
  lemma StarCountOtherLead(text: string)
    requires Trim(text) != [] && !IsDigit(Trim(text)[0]) && Trim(text)[0] !in "+-,"
    ensures StarCount(text) == 0
  {
    var t := Trim(text);
    TrimShape(text);
    RemoveFirstKeepsHead(t, ',');
    ParseIntOtherLead(RemoveFirst(t, ','));
  }

  /** Removing the first `c` keeps a head that is not `c`. */
  lemma RemoveFirstKeepsHead(t: string, c: char)
    requires t != [] && t[0] != c
    ensures RemoveFirst(t, c) != [] && RemoveFirst(t, c)[0] == t[0]
  {
    if c in t {
      var k := FirstIndex(t, c);
      assert k != 0;
      assert RemoveFirst(t, c) == t[..k] + t[k + 1..];
    }
  }

  /** `parseInt` of a text led by anything but whitespace, a sign or a
      digit is `NaN`. */
  lemma ParseIntOtherLead(u: string)
    requires u != [] && !IsWhitespace(u[0]) && !IsDigit(u[0]) && u[0] !in "+-"
    ensures ParseInt(u) == None
  {
    assert TrimStart(u) == u;
    assert LeadingDigits(u) == [];
  }

  /** The comma `replace` drops is the first one, wherever it is: a leading
      comma before digits leaves the digits, so `",12"` counts 12. */
  lemma StarCountLeadingComma(d: string)
    requires AllDigits(d) && d != []
    ensures StarCount("," + d) == DigitsValue(d)
  {
    var s := "," + d;
    assert IsDigit(s[|s| - 1]) by {
      assert s[|s| - 1] == d[|d| - 1];
    }
    TrimIdentity(s);
    assert Trim(s) == s;
    LeadingCommaRemoved(d);
    assert IsDigit(d[0]);
    ParseIntDigitLed(d);
    LeadingAllDigits(d);
    assert ParseInt(RemoveFirst(Trim(s), ',')) == Some(DigitsValue(d));
  }

  lemma LeadingCommaRemoved(d: string)
    ensures RemoveFirst("," + d, ',') == d
  {
    var s := "," + d;
    assert s[0] == ',';
    assert FirstIndex(s, ',') == 0;
    assert s[1..] == d;
  }

  lemma TrimNoDigits(s: string)
    requires NoDigits(s)
    ensures NoDigits(Trim(s))
  {
    var t := TrimStart(s);
    SliceNoDigits(s, |s| - |t|, |s|);
    var r := TrimEnd(t);
    SliceNoDigits(t, 0, |r|);
  }

  lemma SliceNoDigits(s: string, i: int, j: int)
    requires NoDigits(s) && 0 <= i <= j <= |s|
    ensures NoDigits(s[i..j])
  {
    assert forall k :: 0 <= k < j - i ==> s[i..j][k] == s[i + k];
  }

  /** `parseInt` of a text without digits is `NaN`. */
  lemma ParseIntNoDigits(u: string)
    requires NoDigits(u)
    ensures ParseInt(u) == None
  {
    var t := TrimStart(u);
    assert t == u[|u| - |t|..|u|];
    SliceNoDigits(u, |u| - |t|, |u|);
    var v := if t != [] && (t[0] == '-' || t[0] == '+') then t[1..] else t;
    assert v == [] || !IsDigit(v[0]) by {
      if v != [] && v != t { assert v[0] == t[1]; }
    }
    assert LeadingDigits(v) == [];
  }

  lemma RemoveFirstNoDigits(t: string)
    requires NoDigits(t)
    ensures NoDigits(RemoveFirst(t, ','))
  {
    if ',' in t {
      var f := FirstIndex(t, ',');
      var u := RemoveFirst(t, ',');
      forall k | 0 <= k < |u| ensures !IsDigit(u[k]) {
        if k < f {
          assert u[k] == t[k];
        } else {
          assert u[k] == t[k + 1];
        }
      }
    }
  }
}
