/** The Django template filters of `resume/templatetags/resume_filters.py`:
    splitting a description into bullet lines, rendering them as an HTML list,
    formatting a date range and formatting a phone number. */
module ResumeFilters {
  import opened Common

  // ---------------------------------------------------------------------------
  // Lines

  /** Python's `value.split('\n')`: the pieces between the newlines, always at least one. */
  function SplitLines(s: string): (lines: seq<string>)
    ensures |lines| >= 1
    ensures forall i :: 0 <= i < |lines| ==> '\n' !in lines[i]
  {
    if s == [] then [""]
    else if s[0] == '\n' then [""] + SplitLines(s[1..])
    else
      var rest := SplitLines(s[1..]);
      [[s[0]] + rest[0]] + rest[1..]
  }

  /** `'\n'.join(lines)`, the inverse of `SplitLines`. */
  function JoinLines(lines: seq<string>): string
    requires |lines| >= 1
  {
    if |lines| == 1 then lines[0] else lines[0] + "\n" + JoinLines(lines[1..])
  }

  lemma {:induction false} JoinSplitLines(s: string)
    ensures JoinLines(SplitLines(s)) == s
  {
    if s == [] {
    } else if s[0] == '\n' {
      JoinSplitLines(s[1..]);
      assert SplitLines(s) == [""] + SplitLines(s[1..]);
      assert SplitLines(s)[1..] == SplitLines(s[1..]);
    } else {
      var rest := SplitLines(s[1..]);
      JoinSplitLines(s[1..]);
      var lines := [[s[0]] + rest[0]] + rest[1..];
      assert SplitLines(s) == lines;
      if |rest| == 1 {
        assert JoinLines(lines) == [s[0]] + rest[0];
      } else {
        assert lines[1..] == rest[1..];
        assert JoinLines(rest) == rest[0] + "\n" + JoinLines(rest[1..]);
        assert JoinLines(lines) == [s[0]] + rest[0] + "\n" + JoinLines(rest[1..]);
      }
    }
  }

  /** Splitting a text that has a newline-free line in front. */
  lemma {:induction false} SplitLinesPrefix(l: string, rest: string)
    requires '\n' !in l
    ensures SplitLines(l + "\n" + rest) == [l] + SplitLines(rest)
    ensures SplitLines(l) == [l]
  {
    if l == [] {
      assert [] + "\n" + rest == "\n" + rest;
      assert ("\n" + rest)[1..] == rest;
    } else {
      SplitLinesPrefix(l[1..], rest);
      assert (l + "\n" + rest)[1..] == l[1..] + "\n" + rest;
      assert l[1..] == l[1..] + [];
      assert [l[0]] + l[1..] == l;
    }
  }

  lemma {:induction false} SplitJoinLines(lines: seq<string>)
    requires |lines| >= 1
    requires forall i :: 0 <= i < |lines| ==> '\n' !in lines[i]
    ensures SplitLines(JoinLines(lines)) == lines
  {
    SplitLinesPrefix(lines[0], "");
    if |lines| > 1 {
      SplitJoinLines(lines[1..]);
      SplitLinesPrefix(lines[0], JoinLines(lines[1..]));
      assert lines == [lines[0]] + lines[1..];
    }
  }

  /** `[line.strip() for line in lines if line.strip()]`. */
  function KeepLines(lines: seq<string>, ws: set<char>): (kept: seq<string>)
    ensures forall i :: 0 <= i < |kept| ==> NoEdgeSpace(kept[i], ws)
  {
    if lines == [] then [] else KeepLine(lines[0], ws) + KeepLines(lines[1..], ws)
  }

  /** `line.strip()` when it is not empty, nothing otherwise. */
  function KeepLine(line: string, ws: set<char>): (kept: seq<string>)
    ensures |kept| <= 1 && (kept != [] ==> NoEdgeSpace(kept[0], ws))
  {
    var l := Strip(line, ws);
    if l == "" then [] else [l]
  }

  /** Lines that are already stripped and non-blank are kept as they are, in order. */
  lemma {:induction false} KeepCleanLines(lines: seq<string>, ws: set<char>)
    requires forall i :: 0 <= i < |lines| ==> NoEdgeSpace(lines[i], ws)
    ensures KeepLines(lines, ws) == lines
  {
    if lines != [] {
      StripNoEdgeSpace(lines[0], ws);
      KeepCleanLines(lines[1..], ws);
    }
  }

  /** A line is a clean bullet: not blank, no whitespace at either end, no newline. */
  predicate CleanLine(l: string) {
    NoEdgeSpace(l, PyWhitespace) && '\n' !in l
  }

  /** `linebreaks_filter`: the stripped, non-blank lines of `value`, in order. */
  function LinebreaksFilter(value: string): (lines: seq<string>)
    ensures value == "" ==> lines == []
    ensures value != "" ==> lines == KeepLines(SplitLines(value), PyWhitespace)
    ensures forall i :: 0 <= i < |lines| ==> CleanLine(lines[i])
  {
    if value == "" then []
    else
      var kept := KeepLines(SplitLines(value), PyWhitespace);
      KeepLinesNoNewline(SplitLines(value), PyWhitespace);
      kept
  }

  lemma {:induction false} KeepLinesNoNewline(lines: seq<string>, ws: set<char>)
    requires forall i :: 0 <= i < |lines| ==> '\n' !in lines[i]
    ensures forall i :: 0 <= i < |KeepLines(lines, ws)| ==> '\n' !in KeepLines(lines, ws)[i]
  {
    if lines != [] {
      KeepLinesNoNewline(lines[1..], ws);
      StripSubstring(lines[0], ws);
    }
  }

  /** Keeping lines works line by line: the kept lines of two blocks are those of the first
      followed by those of the second. */
  lemma {:induction false} KeepLinesAppend(a: seq<string>, b: seq<string>, ws: set<char>)
    ensures KeepLines(a + b, ws) == KeepLines(a, ws) + KeepLines(b, ws)
  {
    if a == [] {
      assert a + b == b;
    } else {
      KeepLinesAppend(a[1..], b, ws);
      HeadTailAppend(a, b);
      AppendAssoc(KeepLine(a[0], ws), KeepLines(a[1..], ws), KeepLines(b, ws));
    }
  }

  lemma KeepLinesSingle(l: string, ws: set<char>)
    ensures KeepLines([l], ws) == (if AllIn(l, ws) then [] else [Strip(l, ws)])
  {
    assert [l][1..] == [];
  }

  /** No line is kept exactly when every line is blank. */
  lemma {:induction false} KeepLinesEmpty(lines: seq<string>, ws: set<char>)
    ensures KeepLines(lines, ws) == [] <==> forall i :: 0 <= i < |lines| ==> AllIn(lines[i], ws)
  {
    if lines != [] {
      KeepLinesEmpty(lines[1..], ws);
      assert forall i :: 1 <= i < |lines| ==> lines[i] == lines[1..][i - 1];
    }
  }

  /** Joined lines are all whitespace exactly when every line is, the newline being whitespace. */
  lemma {:induction false} AllInJoinLines(lines: seq<string>, ws: set<char>)
    requires |lines| >= 1 && '\n' in ws
    ensures AllIn(JoinLines(lines), ws) <==> forall i :: 0 <= i < |lines| ==> AllIn(lines[i], ws)
  {
    if |lines| > 1 {
      AllInJoinLines(lines[1..], ws);
      var a, b := lines[0], JoinLines(lines[1..]);
      var j := a + "\n" + b;
      assert forall k :: 0 <= k < |a| ==> j[k] == a[k];
      assert forall k :: 0 <= k < |b| ==> j[|a| + 1 + k] == b[k];
      assert forall i :: 1 <= i < |lines| ==> lines[i] == lines[1..][i - 1];
      if AllIn(a, ws) && AllIn(b, ws) {
        forall k | 0 <= k < |j|
          ensures j[k] in ws
        {
          if k > |a| {
            assert j[k] == b[k - |a| - 1];
          }
        }
      }
    }
  }

  /** `linebreaks_filter` returns no bullet exactly when the text is all whitespace. */
  lemma LinebreaksFilterBlank(value: string)
    ensures LinebreaksFilter(value) == [] <==> AllIn(value, PyWhitespace)
  {
    if value != "" {
      var lines := SplitLines(value);
      KeepLinesEmpty(lines, PyWhitespace);
      AllInJoinLines(lines, PyWhitespace);
      JoinSplitLines(value);
    }
  }

  /** `linebreaks_filter` reads the text line by line: the first line, stripped, when it is not
      blank, then the bullets of the rest. */
  lemma LinebreaksFilterLine(l: string, rest: string)
    requires '\n' !in l
    ensures LinebreaksFilter(l + "\n" + rest) ==
              (if AllIn(l, PyWhitespace) then [] else [Strip(l, PyWhitespace)]) + LinebreaksFilter(rest)
  {
    SplitLinesPrefix(l, rest);
    KeepLinesAppend([l], SplitLines(rest), PyWhitespace);
    KeepLinesSingle(l, PyWhitespace);
    if rest == "" {
      assert SplitLines(rest) == [""];
      KeepLinesSingle("", PyWhitespace);
    }
  }

  /** A text without a newline gives at most one bullet: itself, stripped. */
  lemma LinebreaksFilterSingleLine(l: string)
    requires '\n' !in l
    ensures LinebreaksFilter(l) == (if AllIn(l, PyWhitespace) then [] else [Strip(l, PyWhitespace)])
  {
    SplitLinesPrefix(l, "");
    KeepLinesSingle(l, PyWhitespace);
  }

  /** A text written as one clean line per bullet comes back as exactly those bullets. */
  lemma LinebreaksFilterRoundTrip(lines: seq<string>)
    requires |lines| >= 1
    requires forall i :: 0 <= i < |lines| ==> CleanLine(lines[i])
    ensures LinebreaksFilter(JoinLines(lines)) == lines
  {
    SplitJoinLines(lines);
    KeepCleanLines(lines, PyWhitespace);
    assert lines[0] != "";
    JoinNonEmpty(lines);
  }

  /** Joining lines whose first one is non-empty gives a non-empty text. */
  lemma JoinNonEmpty(lines: seq<string>)
    requires |lines| >= 1 && lines[0] != ""
    ensures JoinLines(lines) != ""
  {
    if |lines| > 1 {
      assert |JoinLines(lines)| >= |lines[0]|;
    }
  }

  // ---------------------------------------------------------------------------
  // HTML list

  /** The concatenated `<li>line</li>` items, no escaping. */
  function ItemsHtml(lines: seq<string>): (html: string)
    ensures html == "" <==> lines == []
  {
    if lines == [] then "" else "<li>" + lines[0] + "</li>" + ItemsHtml(lines[1..])
  }

  /** Non-empty markup opens with the first item's `<li>` and closes with the last one's `</li>`. */
  lemma {:induction false} ItemsHtmlEnds(lines: seq<string>)
    requires lines != []
    ensures var html := ItemsHtml(lines);
            |html| >= 9 && html[..4] == "<li>" && html[|html| - 5..] == "</li>"
  {
    var h := "<li>" + lines[0] + "</li>";
    var t := ItemsHtml(lines[1..]);
    if lines[1..] != [] {
      ItemsHtmlEnds(lines[1..]);
      assert (h + t)[|h + t| - 5..] == t[|t| - 5..];
    }
    assert (h + t)[..4] == h[..4];
  }

  /** The markup of two blocks of lines is the markup of the first followed by that of the second. */
  lemma {:induction false} ItemsHtmlAppend(a: seq<string>, b: seq<string>)
    ensures ItemsHtml(a + b) == ItemsHtml(a) + ItemsHtml(b)
  {
    if a == [] {
      assert a + b == b;
    } else {
      ItemsHtmlAppend(a[1..], b);
      HeadTailAppend(a, b);
      AppendAssoc("<li>" + a[0] + "</li>", ItemsHtml(a[1..]), ItemsHtml(b));
    }
  }

  /** One line is one item. */
  lemma ItemsHtmlSingle(l: string)
    ensures ItemsHtml([l]) == "<li>" + l + "</li>"
  {
    assert [l][1..] == [];
  }

  /** `linebreaks_to_list`: "" when no line survives, otherwise an unescaped `<ul>` of the
      same lines `linebreaks_filter` returns. */
  function LinebreaksToList(value: string): (html: string)
    ensures html == "" <==> LinebreaksFilter(value) == []
    ensures html != "" ==> html == "<ul>" + ItemsHtml(LinebreaksFilter(value)) + "</ul>"
  {
    if value == "" then ""
    else
      var lines := KeepLines(SplitLines(value), PyWhitespace);
      if lines == [] then "" else "<ul>" + ItemsHtml(lines) + "</ul>"
  }

  /** How many times `c` occurs in `s`. */
  function Occurrences(c: char, s: string): nat {
    if s == [] then 0 else (if s[0] == c then 1 else 0) + Occurrences(c, s[1..])
  }

  lemma {:induction false} OccurrencesAppend(c: char, a: string, b: string)
    ensures Occurrences(c, a + b) == Occurrences(c, a) + Occurrences(c, b)
  {
    if a == [] {
      assert a + b == b;
    } else {
      OccurrencesAppend(c, a[1..], b);
      assert (a + b)[1..] == a[1..] + b;
    }
  }

  lemma OccurrencesAbsent(c: char, s: string)
    requires c !in s
    ensures Occurrences(c, s) == 0
  {
    if s != [] {
      OccurrencesAbsent(c, s[1..]);
    }
  }

  /** Each kept line contributes exactly one `<li>...</li>` pair: for lines that
      contain no `<`, the item markup holds two tags per line. */
  lemma {:induction false} ItemsHtmlTagCount(lines: seq<string>)
    requires forall i :: 0 <= i < |lines| ==> '<' !in lines[i]
    ensures Occurrences('<', ItemsHtml(lines)) == 2 * |lines|
  {
    if lines != [] {
      ItemsHtmlTagCount(lines[1..]);
      OccurrencesAbsent('<', lines[0]);
      var head := "<li>" + lines[0] + "</li>";
      assert ItemsHtml(lines) == "<li>" + (lines[0] + ("</li>" + ItemsHtml(lines[1..])));
      OccurrencesAppend('<', "<li>", lines[0] + ("</li>" + ItemsHtml(lines[1..])));
      OccurrencesAppend('<', lines[0], "</li>" + ItemsHtml(lines[1..]));
      OccurrencesAppend('<', "</li>", ItemsHtml(lines[1..]));
      assert Occurrences('<', "<li>") == 1;
      assert Occurrences('<', "</li>") == 1;
    }
  }

  // ---------------------------------------------------------------------------
  // Date range

  /** What a template hands to `format_date_range`: nothing, a string, a date object
      (it has `strftime`), or any other object with its `str()` and its truthiness. */
  datatype DateArg =
    | Missing
    | Text(s: string)
    | Date(year: nat, month: nat, day: nat)
    | Other(repr: string, truthy: bool)

  /** Python truthiness of the argument. */
  predicate Given(d: DateArg) {
    match d
    case Missing => false
    case Text(s) => s != ""
    case Date(_, _, _) => true
    case Other(_, t) => t
  }

  /** Decimal digits of `n`, no leading zeros. */
  function NatToString(n: nat): (r: string)
    ensures r != [] && forall k :: 0 <= k < |r| ==> '0' <= r[k] <= '9'
  {
    if n < 10 then [DigitChar(n)] else NatToString(n / 10) + [DigitChar(n % 10)]
  }

  function DigitChar(d: nat): char
    requires d < 10
  {
    ['0', '1', '2', '3', '4', '5', '6', '7', '8', '9'][d]
  }

  /** Reads a string of decimal digits back as a number. */
  function ParseNat(s: string): nat
    requires forall k :: 0 <= k < |s| ==> '0' <= s[k] <= '9'
  {
    if s == [] then 0 else 10 * ParseNat(s[..|s| - 1]) + (s[|s| - 1] as int - '0' as int)
  }

  lemma {:induction false} ParseNatToString(n: nat)
    ensures ParseNat(NatToString(n)) == n
  {
    var d := DigitChar(n % 10);
    assert d as int - '0' as int == n % 10;
    if n >= 10 {
      ParseNatToString(n / 10);
      var r := NatToString(n / 10) + [d];
      assert r[..|r| - 1] == NatToString(n / 10);
    }
  }

  /** A four-digit year renders as four digits. */
  lemma {:induction false} YearTextLength(y: nat)
    requires 1000 <= y <= 9999
    ensures |NatToString(y)| == 4
  {
    assert |NatToString(y / 1000)| == 1;
    assert |NatToString(y / 100)| == 2;
    assert |NatToString(y / 10)| == 3;
  }

  /** The text a single date contributes: verbatim for strings, the year (`'%Y'`)
      for dates, `str()` otherwise. */
  function DateText(d: DateArg): (r: string)
    ensures d.Missing? ==> r == "None"
    ensures d.Text? ==> r == d.s
    ensures d.Date? ==> r != "" && (forall k :: 0 <= k < |r| ==> IsDigit(r[k])) && ParseNat(r) == d.year
    ensures d.Other? ==> r == d.repr
  {
    match d
    case Missing => "None"
    case Text(s) => s
    case Date(year, _, _) => ParseNatToString(year); NatToString(year)
    case Other(repr, _) => repr
  }

  /** `format_date_range`. */
  function FormatDateRange(start: DateArg, end: DateArg): (r: string)
    ensures !Given(start) ==> r == ""
    ensures Given(start) ==>
              var n := |DateText(start)|;
              && |r| >= n + 3
              && r[..n] == DateText(start)
              && r[n..n + 3] == " - "
              && r[n + 3..] == (if Given(end) then DateText(end) else "Present")
  {
    if !Given(start) then ""
    else if Given(end) then DateText(start) + " - " + DateText(end)
    else DateText(start) + " - Present"
  }

  /** Two dates render as their years only, and each year can be read back. */
  lemma FormatDateYears(y1: nat, m1: nat, d1: nat, y2: nat, m2: nat, d2: nat)
    ensures var r := FormatDateRange(Date(y1, m1, d1), Date(y2, m2, d2));
            var n := |NatToString(y1)|;
            ParseNat(r[..n]) == y1 && r[n..n + 3] == " - " && ParseNat(r[n + 3..]) == y2
  {
    ParseNatToString(y1);
    ParseNatToString(y2);
  }

  // ---------------------------------------------------------------------------
  // Phone number

  predicate IsDigit(c: char) {
    '0' <= c <= '9'
  }

  /** `re.sub(r'\D', '', value)`: the digits of `value`, in order. */
  function Digits(s: string): (d: string)
    ensures forall k :: 0 <= k < |d| ==> IsDigit(d[k])
  {
    if s == [] then "" else (if IsDigit(s[0]) then [s[0]] else "") + Digits(s[1..])
  }

  lemma {:induction false} DigitsAppend(a: string, b: string)
    ensures Digits(a + b) == Digits(a) + Digits(b)
  {
    if a == [] {
      assert a + b == b;
    } else {
      DigitsAppend(a[1..], b);
      assert (a + b)[0] == a[0];
      assert (a + b)[1..] == a[1..] + b;
      var h := if IsDigit(a[0]) then [a[0]] else "";
      assert Digits(a + b) == h + Digits(a[1..] + b);
      assert Digits(a) == h + Digits(a[1..]);
    }
  }

  /** A digit is kept, anything else is dropped. */
  lemma DigitsSingle(c: char)
    ensures Digits([c]) == (if IsDigit(c) then [c] else "")
  {
    assert [c][1..] == [];
  }

  lemma {:induction false} DigitsOfDigits(s: string)
    requires forall k :: 0 <= k < |s| ==> IsDigit(s[k])
    ensures Digits(s) == s
  {
    if s != [] {
      DigitsOfDigits(s[1..]);
    }
  }

  /** `phone_format`. */
  function PhoneFormat(value: string): (r: string)
    ensures value == "" ==> r == ""
    ensures |Digits(value)| == 10 ==>
              |r| == 14 && r[0] == '(' && r[4] == ')' && r[5] == ' ' && r[9] == '-'
    ensures |Digits(value)| != 10 ==> r == value
  {
    if value == "" then ""
    else
      var d := Digits(value);
      if |d| == 10 then "(" + d[..3] + ") " + d[3..6] + "-" + d[6..] else value
  }

  /** Formatting keeps exactly the digits, in their order. */
  lemma PhoneFormatKeepsDigits(value: string)
    ensures Digits(PhoneFormat(value)) == Digits(value)
  {
    var d := Digits(value);
    if value != "" && |d| == 10 {
      var a, b, c := d[..3], d[3..6], d[6..];
      DigitsOfDigits(a);
      DigitsOfDigits(b);
      DigitsOfDigits(c);
      DigitsAppend("(" + a + ") " + b + "-", c);
      DigitsAppend("(" + a + ") " + b, "-");
      DigitsAppend("(" + a + ") ", b);
      DigitsAppend("(" + a, ") ");
      DigitsAppend("(", a);
      assert Digits("(") == "" && Digits(") ") == "" && Digits("-") == "";
      assert a + b + c == d;
    }
  }

  /** Formatting a formatted number changes nothing. */
  lemma PhoneFormatIdempotent(value: string)
    ensures PhoneFormat(PhoneFormat(value)) == PhoneFormat(value)
  {
    PhoneFormatKeepsDigits(value);
    var r := PhoneFormat(value);
    if value != "" && |Digits(value)| == 10 {
      var d := Digits(r);
      assert |d| == 10;
      assert d == Digits(value);
      var reformatted := "(" + d[..3] + ") " + d[3..6] + "-" + d[6..];
      assert |reformatted| == 14;
      assert forall k :: 0 <= k < 14 ==> reformatted[k] == r[k];
    }
  }
}
