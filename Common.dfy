/** Value-level helpers shared by the whole model: optional values, the
    JavaScript string operations the application relies on (`trim`, `split`,
    `padStart`, `String(n)`, `Number(s)`) restricted to what the application
    does with them, and the `formatDate` helper of the two search pages. */
module Common {

  datatype Option<T> = None | Some(value: T)

  /** The response a page receives from the backend: `{code: "SUCCESS"}`, any
      other code, or an exception thrown by the HTTP client. */
  datatype Outcome = Success | FailureCode | Exception

  // ---------------------------------------------------------------------------
  // Whitespace and `trim`

  /** The characters `String.prototype.trim` removes: the WhiteSpace and
      LineTerminator characters of ECMA-262 (tab, vertical
      tab, form feed, space, no-break space, the byte order mark, the Unicode
      space separators, line feed, carriage return and the two Unicode line
      and paragraph separators). */
  predicate IsSpace(c: char) {
    c == ' ' || c == '\t' || c == '\n' || c == '\r' || c == '\U{000B}' || c == '\U{000C}'
    || (c >= '\U{00A0}' && IsUnicodeSpace(c))
  }

  /** The white space and line terminators outside ASCII. */
  predicate IsUnicodeSpace(c: char) {
    c == '\U{00A0}' || c == '\U{FEFF}' || c == '\U{1680}' || ('\U{2000}' <= c <= '\U{200A}')
    || c == '\U{202F}' || c == '\U{205F}' || c == '\U{3000}' || c == '\U{2028}' || c == '\U{2029}'
  }

  function TrimStart(s: string): (r: string)
    ensures |r| <= |s| && r == s[|s| - |r|..]
    ensures r != [] ==> !IsSpace(r[0])
  {
    if s != [] && IsSpace(s[0]) then TrimStart(s[1..]) else s
  }

  function TrimEnd(s: string): (r: string)
    ensures |r| <= |s| && r == s[..|r|]
    ensures r != [] ==> !IsSpace(r[|r| - 1])
  {
    if s != [] && IsSpace(s[|s| - 1]) then TrimEnd(s[..|s| - 1]) else s
  }

  function Trim(s: string): string {
    TrimEnd(TrimStart(s))
  }

  /** `!s.trim()` in JavaScript: the string is empty or only whitespace. */
  predicate IsBlank(s: string) {
    forall i :: 0 <= i < |s| ==> IsSpace(s[i])
  }

  /** What `TrimStart` removes is blank. */
  lemma {:induction false} TrimStartRemovesBlank(s: string)
    ensures IsBlank(s[..|s| - |TrimStart(s)|])
  {
    if s != [] && IsSpace(s[0]) {
      var r := TrimStart(s[1..]);
      TrimStartRemovesBlank(s[1..]);
      assert s[..|s| - |r|] == [s[0]] + s[1..][..|s| - 1 - |r|];
    }
  }

  /** What `TrimEnd` removes is blank. */
  lemma {:induction false} TrimEndRemovesBlank(s: string)
    ensures IsBlank(s[|TrimEnd(s)|..])
  {
    if s != [] && IsSpace(s[|s| - 1]) {
      var r := TrimEnd(s[..|s| - 1]);
      TrimEndRemovesBlank(s[..|s| - 1]);
      assert s[|r|..] == s[..|s| - 1][|r|..] + [s[|s| - 1]];
    }
  }

  /** `s.trim()` is what is left after a blank prefix and a blank suffix are
      removed, and it neither starts nor ends with whitespace. */
  lemma TrimRemovesBlankEnds(s: string)
    ensures Trim(s) != [] ==> !IsSpace(Trim(s)[0]) && !IsSpace(Trim(s)[|Trim(s)| - 1])
    ensures exists pre, post :: s == pre + Trim(s) + post && IsBlank(pre) && IsBlank(post)
  {
    var t := TrimStart(s);
    var r := TrimEnd(t);
    TrimStartRemovesBlank(s);
    TrimEndRemovesBlank(t);
    assert Trim(s) == r;
    ThreeParts(s, t, r);
  }

  lemma ThreeParts(s: string, t: string, r: string)
    requires |t| <= |s| && t == s[|s| - |t|..] && |r| <= |t| && r == t[..|r|]
    requires IsBlank(s[..|s| - |t|]) && IsBlank(t[|r|..])
    ensures exists pre, post :: s == pre + r + post && IsBlank(pre) && IsBlank(post)
  {
    var pre, post := s[..|s| - |t|], t[|r|..];
    assert t == r + post;
    assert s == pre + t;
    assert s == pre + r + post;
  }

  lemma {:induction false} TrimStartEmptyIff(s: string)
    ensures TrimStart(s) == [] <==> forall i :: 0 <= i < |s| ==> IsSpace(s[i])
  {
    if s != [] && IsSpace(s[0]) {
      TrimStartEmptyIff(s[1..]);
      assert forall i :: 1 <= i < |s| ==> s[i] == s[1..][i - 1];
    }
  }

  /** Trimming leaves nothing exactly when every character is whitespace. */
  lemma BlankIff(s: string)
    ensures Trim(s) == "" <==> IsBlank(s)
  {
    TrimStartEmptyIff(s);
    var t := TrimStart(s);
    if t != [] {
      assert !IsSpace(t[0]);
      assert TrimEnd(t) != [] by {
        if TrimEnd(t) == [] {
          TrimEndEmptyImpliesSpaces(t);
        }
      }
    }
  }

  lemma {:induction false} TrimEndEmptyImpliesSpaces(s: string)
    requires TrimEnd(s) == []
    ensures forall i :: 0 <= i < |s| ==> IsSpace(s[i])
  {
    if s != [] {
      TrimEndEmptyImpliesSpaces(s[..|s| - 1]);
      assert forall i :: 0 <= i < |s| - 1 ==> s[i] == s[..|s| - 1][i];
    }
  }

  /** A string with no whitespace at either end is its own trim. */
  lemma TrimOfUnpadded(s: string)
    requires s != [] ==> !IsSpace(s[0]) && !IsSpace(s[|s| - 1])
    ensures Trim(s) == s
  {
  }

  // ---------------------------------------------------------------------------
  // `split` on a one-character separator

  /** `s.split(sep)`: the maximal separator-free pieces, empty pieces kept. */
  function Split(s: string, sep: char): (r: seq<string>)
    ensures |r| >= 1
    ensures forall k :: 0 <= k < |r| ==> sep !in r[k]
  {
    if s == [] then [""]
    else
      var rest := Split(s[1..], sep);
      if s[0] == sep then [""] + rest else [[s[0]] + rest[0]] + rest[1..]
  }

  lemma {:induction false} SplitNoSeparator(s: string, sep: char)
    requires sep !in s
    ensures Split(s, sep) == [s]
  {
    if s != [] {
      assert s[0] != sep && sep !in s[1..];
      SplitNoSeparator(s[1..], sep);
      assert [s[0]] + s[1..] == s;
    }
  }

  /** Splitting `a + sep + b` where `a` has no separator yields `a` first. */
  lemma {:induction false} SplitAt(a: string, sep: char, b: string)
    requires sep !in a
    ensures Split(a + [sep] + b, sep) == [a] + Split(b, sep)
  {
    if a == [] {
      assert (a + [sep] + b)[1..] == b;
    } else {
      assert (a + [sep] + b)[1..] == a[1..] + [sep] + b;
      assert a[0] != sep && sep !in a[1..];
      SplitAt(a[1..], sep, b);
      assert [a[0]] + a[1..] == a;
    }
  }

  /** If `s` contains the separator, its first piece is a proper prefix of `s`. */
  lemma {:induction false} SplitFirstIsProperPrefix(s: string, sep: char)
    requires sep in s
    ensures |Split(s, sep)| >= 2
    ensures |Split(s, sep)[0]| < |s| && Split(s, sep)[0] == s[..|Split(s, sep)[0]|]
  {
    if s[0] != sep {
      SplitFirstIsProperPrefix(s[1..], sep);
    }
  }

  // ---------------------------------------------------------------------------
  // Deleting a record by id: `list.filter(x => x.id !== key)`

  /** The records whose id, read by `id`, differs from `key`, in list order.
      The certificate and product pages both delete this way. */
  function WithoutId<T>(xs: seq<T>, id: T -> string, key: string): (r: seq<T>)
    ensures |r| <= |xs|
  {
    if xs == [] then []
    else if id(xs[0]) == key then WithoutId(xs[1..], id, key)
    else [xs[0]] + WithoutId(xs[1..], id, key)
  }

  /** Exactly the records with that id go. */
  lemma {:induction false} WithoutIdMembers<T>(xs: seq<T>, id: T -> string, key: string)
    ensures forall x :: x in WithoutId(xs, id, key) <==> x in xs && id(x) != key
  {
    if xs != [] {
      WithoutIdMembers(xs[1..], id, key);
      assert forall x :: x in xs <==> x == xs[0] || x in xs[1..];
    }
  }

  /** The others keep their order. */
  lemma {:induction false} WithoutIdAppend<T>(a: seq<T>, b: seq<T>, id: T -> string, key: string)
    ensures WithoutId(a + b, id, key) == WithoutId(a, id, key) + WithoutId(b, id, key)
  {
    if a == [] {
      assert a + b == b;
    } else {
      assert (a + b)[1..] == a[1..] + b;
      WithoutIdAppend(a[1..], b, id, key);
    }
  }

  /** A list without the id is left as it is. */
  lemma {:induction false} WithoutAbsentId<T>(xs: seq<T>, id: T -> string, key: string)
    requires forall k :: 0 <= k < |xs| ==> id(xs[k]) != key
    ensures WithoutId(xs, id, key) == xs
  {
    if xs != [] {
      assert forall k :: 0 <= k < |xs| - 1 ==> xs[1..][k] == xs[k + 1];
      WithoutAbsentId(xs[1..], id, key);
    }
  }

  // ---------------------------------------------------------------------------
  // Decimal digits, `String(n)` and `Number(s)`

  predicate IsDigit(c: char) {
    '0' <= c <= '9'
  }

  predicate AllDigits(s: string) {
    forall i :: 0 <= i < |s| ==> IsDigit(s[i])
  }

  function DigitChar(d: nat): (c: char)
    requires d < 10
    ensures IsDigit(c) && (c as int) - ('0' as int) == d
  {
    (('0' as int) + d) as char
  }

  /** The value of a string of decimal digits, leading zeros allowed. */
  function DigitsValue(s: string): nat
    requires AllDigits(s)
  {
    if s == [] then 0
    else DigitsValue(s[..|s| - 1]) * 10 + ((s[|s| - 1] as int) - ('0' as int))
  }

  /** `String(n)` for a natural number: its shortest decimal representation. */
  function NatToString(n: nat): (r: string)
    ensures r != [] && AllDigits(r)
    ensures n < 10 <==> |r| == 1
    ensures |r| > 1 ==> r[0] != '0'
  {
    if n < 10 then [DigitChar(n)] else NatToString(n / 10) + [DigitChar(n % 10)]
  }

  /** `String(n)` for an integer. */
  function IntToString(n: int): string {
    if n < 0 then "-" + NatToString(-n) else NatToString(n)
  }

  lemma {:induction false} NatToStringValue(n: nat)
    ensures DigitsValue(NatToString(n)) == n
  {
    var r := NatToString(n);
    if n >= 10 {
      NatToStringValue(n / 10);
      assert r[..|r| - 1] == NatToString(n / 10);
    }
  }

  /** Leading zeros do not change the value of a digit string. */
  lemma {:induction false} LeadingZeroValue(s: string)
    requires AllDigits(s)
    ensures AllDigits("0" + s) && DigitsValue("0" + s) == DigitsValue(s)
  {
    if s != [] {
      LeadingZeroValue(s[..|s| - 1]);
      assert ("0" + s)[..|"0" + s| - 1] == "0" + s[..|s| - 1];
    }
  }

  lemma NatToStringLength(n: nat)
    ensures 10 <= n < 100 ==> |NatToString(n)| == 2
    ensures 100 <= n < 1000 ==> |NatToString(n)| == 3
    ensures 1000 <= n < 10000 ==> |NatToString(n)| == 4
  {
  }

  /** A model of JavaScript's `Number(s)` on strings: surrounding whitespace is
      ignored, an empty string is 0, an optional sign followed by decimal
      digits is that integer, and anything else is `NaN` (`None`). */
  function ParseNumber(s: string): (r: Option<int>)
    ensures IsBlank(s) ==> r == Some(0)
  {
    BlankIff(s);
    ParseTrimmed(Trim(s))
  }

  /** `!isNaN(Number(x)) && Number(x) > 0`. */
  predicate PositiveNumber(x: string) {
    ParseNumber(x).Some? && ParseNumber(x).value > 0
  }

  /** `Number` on a string that has already been trimmed. */
  function ParseTrimmed(t: string): Option<int> {
    if t == [] then Some(0)
    else if (t[0] == '-' || t[0] == '+') && |t| > 1 && AllDigits(t[1..]) then
      var v: int := DigitsValue(t[1..]);
      Some(if t[0] == '-' then -v else v)
    else if AllDigits(t) then Some(DigitsValue(t))
    else None
  }

  lemma DigitsUnpadded(d: string)
    requires d != [] && AllDigits(d)
    ensures Trim(d) == d
  {
    assert IsDigit(d[0]) && IsDigit(d[|d| - 1]);
    TrimOfUnpadded(d);
  }

  /** A non-empty digit string reads back as its value. */
  lemma ParseDigits(d: string)
    requires d != [] && AllDigits(d)
    ensures ParseNumber(d) == Some(DigitsValue(d))
  {
    DigitsUnpadded(d);
    assert IsDigit(d[0]);
  }

  lemma ParseTrimmedNegative(m: string)
    requires |m| > 1 && m[0] == '-' && AllDigits(m[1..])
    ensures ParseTrimmed(m) == Some(-(DigitsValue(m[1..]) as int))
  {
  }

  /** A minus sign followed by a non-empty digit string reads back as the
      negated value. */
  lemma ParseNegatedDigits(d: string, m: string, n: int)
    requires d != [] && AllDigits(d) && m == "-" + d && n == -(DigitsValue(d) as int)
    ensures ParseNumber(m) == Some(n)
  {
    assert m[1..] == d && m[0] == '-' && m[|m| - 1] == d[|d| - 1];
    assert IsDigit(d[|d| - 1]);
    TrimOfUnpadded(m);
    ParseTrimmedNegative(m);
  }


  lemma ParseNatToString(n: nat)
    ensures ParseNumber(NatToString(n)) == Some(n)
  {
    var d := NatToString(n);
    NatToStringValue(n);
    ParseDigits(d);
  }

  lemma ParseNegatedNatToString(n: nat, m: string)
    requires m == "-" + NatToString(n)
    ensures ParseNumber(m) == Some(-(n as int))
  {
    NatToStringValue(n);
    ParseNegatedDigits(NatToString(n), m, -(n as int));
  }

  /** `Number(String(n)) === n` for every integer. */
  lemma ParseIntToString(n: int)
    ensures ParseNumber(IntToString(n)) == Some(n)
  {
    if n < 0 {
      ParseNegatedNatToString(-n, IntToString(n));
    } else {
      ParseNatToString(n);
    }
  }

  /** `s.padStart(width, c)`. */
  function PadStart(s: string, width: nat, c: char): (r: string)
    ensures |r| == if |s| >= width then |s| else width
    ensures r[|r| - |s|..] == s
    ensures forall i :: 0 <= i < |r| - |s| ==> r[i] == c
    decreases width - |s|
  {
    if |s| >= width then s else PadStart([c] + s, width, c)
  }

  lemma {:induction false} ZeroPadValue(s: string, width: nat)
    requires AllDigits(s)
    ensures AllDigits(PadStart(s, width, '0'))
    ensures DigitsValue(PadStart(s, width, '0')) == DigitsValue(s)
    decreases width - |s|
  {
    if |s| < width {
      LeadingZeroValue(s);
      ZeroPadValue("0" + s, width);
    }
  }

  // ---------------------------------------------------------------------------
  // `formatDate` (the same helper is written out in both search pages)

  /** `${year}-${pad2(month + 1)}-${pad2(day)}` where `month` is the
      zero-based value of `Date.getMonth()` and `day` that of `Date.getDate()`. */
  function FormatDate(year: int, month0: int, day: int): string {
    IntToString(year) + "-" + PadStart(IntToString(month0 + 1), 2, '0') + "-"
      + PadStart(IntToString(day), 2, '0')
  }

  lemma TwoDigitField(n: int)
    requires 1 <= n <= 99
    ensures |PadStart(IntToString(n), 2, '0')| == 2
    ensures AllDigits(PadStart(IntToString(n), 2, '0'))
    ensures DigitsValue(PadStart(IntToString(n), 2, '0')) == n
  {
    NatToStringValue(n);
    ZeroPadValue(NatToString(n), 2);
  }

  lemma FullDateLayout(y: string, m: string, d: string, r: string)
    requires |y| == 4 && |m| == 2 && |d| == 2 && r == y + "-" + m + "-" + d
    ensures |r| == 10 && r[4] == '-' && r[7] == '-'
    ensures r[..4] == y && r[5..7] == m && r[8..] == d
  {
  }

  /** An RFC 3339 (section 5.6) `full-date`, `date-fullyear "-" date-month
      "-" date-mday` with each field zero-padded, whose fields read as the
      given year, month and day. */
  predicate IsFullDate(r: string, year: int, month: int, day: int) {
    && |r| == 10 && r[4] == '-' && r[7] == '-'
    && AllDigits(r[..4]) && AllDigits(r[5..7]) && AllDigits(r[8..])
    && DigitsValue(r[..4]) == year && DigitsValue(r[5..7]) == month && DigitsValue(r[8..]) == day
  }

  /** For a four-digit year the result is a `full-date` of that year, the
      one-based month and the day. */
  lemma FormatDateIsFullDate(year: int, month0: int, day: int)
    requires 1000 <= year <= 9999 && 0 <= month0 <= 11 && 1 <= day <= 31
    ensures IsFullDate(FormatDate(year, month0, day), year, month0 + 1, day)
  {
    var y := IntToString(year);
    var m := PadStart(IntToString(month0 + 1), 2, '0');
    var d := PadStart(IntToString(day), 2, '0');
    NatToStringLength(year);
    NatToStringValue(year);
    TwoDigitField(month0 + 1);
    TwoDigitField(day);
    FullDateLayout(y, m, d, FormatDate(year, month0, day));
  }
}
