/** The text operations the pipeline applies to column names and cells:
    `str.lower`, `str.strip`, `str.replace(x, '')` and `int(...)`. */
module Strings {
  import opened Wrappers

  // ---------------------------------------------------------------- lower

  /** `str.lower` on one character; only ASCII letters are mapped. */
  function LowerChar(c: char): char {
    if 'A' <= c <= 'Z' then (c as int + 32) as char else c
  }

  predicate IsUpper(c: char) {
    'A' <= c <= 'Z'
  }

  /** Lower-cases a column name (line 135 / 159). */
  function Lower(s: string): (r: string)
    ensures |r| == |s|
    ensures forall i :: 0 <= i < |r| ==> !IsUpper(r[i])
    ensures forall i :: 0 <= i < |r| ==> r[i] == s[i] || (IsUpper(s[i]) && r[i] as int == s[i] as int + 32)
  {
    seq(|s|, i requires 0 <= i < |s| => LowerChar(s[i]))
  }

  /** Names differing only in case ("Date", "DATE", "date") are lower-cased to one name. */
  lemma {:induction false} LowerIgnoresCase(a: string, b: string)
    requires |a| == |b|
    requires forall i :: 0 <= i < |a| ==> LowerChar(a[i]) == LowerChar(b[i])
    ensures Lower(a) == Lower(b)
  {
    forall i | 0 <= i < |a|
      ensures Lower(a)[i] == Lower(b)[i]
    {
      assert Lower(a)[i] == LowerChar(a[i]);
      assert Lower(b)[i] == LowerChar(b[i]);
    }
  }

  // ---------------------------------------------------------------- strip

  /** The characters Python's `str.strip()` removes (those for which `isspace()` holds). */
  predicate IsSpace(c: char) {
    var n := c as int;
    (9 <= n <= 13) || (28 <= n <= 32) || n == 0x85 || n == 0xA0 || n == 0x1680
    || (0x2000 <= n <= 0x200A) || n == 0x2028 || n == 0x2029 || n == 0x202F
    || n == 0x205F || n == 0x3000
  }

  predicate AllSpace(s: string) {
    forall i :: 0 <= i < |s| ==> IsSpace(s[i])
  }

  function TrimLeft(s: string): (r: string)
    ensures |r| <= |s| && r == s[|s| - |r|..]
    ensures AllSpace(s[..|s| - |r|])
    ensures r == [] || !IsSpace(r[0])
  {
    if s != [] && IsSpace(s[0]) then
      var r := TrimLeft(s[1..]);
      assert s[..|s| - |r|] == [s[0]] + s[1..][..|s| - 1 - |r|];
      r
    else s
  }

  function TrimRight(s: string): (r: string)
    ensures |r| <= |s| && r == s[..|r|]
    ensures AllSpace(s[|r|..])
    ensures r == [] || !IsSpace(r[|r| - 1])
  {
    if s != [] && IsSpace(s[|s| - 1]) then
      var r := TrimRight(s[..|s| - 1]);
      assert s[|r|..] == s[..|s| - 1][|r|..] + [s[|s| - 1]];
      r
    else s
  }

  /** `str.strip()`: drops leading and trailing whitespace (lines 148, 194, 195). */
  function Trim(s: string): (r: string)
    ensures r == [] || (!IsSpace(r[0]) && !IsSpace(r[|r| - 1]))
    ensures exists front, back :: s == front + r + back && AllSpace(front) && AllSpace(back)
  {
    var l := TrimLeft(s);
    var r := TrimRight(l);
    var front, back := s[..|s| - |l|], l[|r|..];
    TrimSplit(s, l, r);
    assert s == front + r + back && AllSpace(front) && AllSpace(back);
    r
  }

  /** A text is its front, then a prefix of its tail, then the rest of that tail. */
  lemma {:induction false} TrimSplit(s: string, l: string, r: string)
    requires |l| <= |s| && l == s[|s| - |l|..] && |r| <= |l| && r == l[..|r|]
    ensures s == s[..|s| - |l|] + r + l[|r|..]
  {
    assert l == r + l[|r|..];
    assert s == s[..|s| - |l|] + l;
  }

  lemma {:induction false} TrimLeftPadding(ws: string, s: string)
    requires AllSpace(ws)
    ensures TrimLeft(ws + s) == TrimLeft(s)
    decreases |ws|
  {
    if ws != [] {
      assert (ws + s)[1..] == ws[1..] + s;
      TrimLeftPadding(ws[1..], s);
    } else {
      assert ws + s == s;
    }
  }

  lemma {:induction false} TrimRightPadding(s: string, ws: string)
    requires AllSpace(ws)
    ensures TrimRight(s + ws) == TrimRight(s)
    decreases |ws|
  {
    if ws != [] {
      assert (s + ws)[..|s + ws| - 1] == s + ws[..|ws| - 1];
      TrimRightPadding(s, ws[..|ws| - 1]);
    } else {
      assert s + ws == s;
    }
  }

  lemma {:induction false} TrimLeftBeforeSpace(s: string, ws: string)
    requires AllSpace(ws)
    ensures TrimLeft(s) != [] ==> TrimLeft(s + ws) == TrimLeft(s) + ws
    ensures TrimLeft(s) == [] ==> AllSpace(TrimLeft(s + ws))
  {
    if s == [] {
      assert s + ws == ws;
    } else if IsSpace(s[0]) {
      assert (s + ws)[1..] == s[1..] + ws;
      TrimLeftBeforeSpace(s[1..], ws);
    } else {
      assert (s + ws)[0] == s[0];
      assert TrimLeft(s) == s;
    }
  }

  /** Whitespace around a category is ignored, so " Food", "Food " and "Food" become one key. */
  lemma {:induction false} TrimIgnoresPadding(front: string, s: string, back: string)
    requires AllSpace(front) && AllSpace(back)
    ensures Trim(front + s + back) == Trim(s)
  {
    var padded := front + s + back;
    var tail := s + back;
    assert padded == front + tail;
    TrimLeftPadding(front, tail);
    assert TrimLeft(padded) == TrimLeft(tail);
    TrimLeftBeforeSpace(s, back);
    var l := TrimLeft(tail);
    if TrimLeft(s) == [] {
      TrimRightPadding([], l);
      assert [] + l == l;
      assert TrimRight(l) == [];
    } else {
      TrimRightPadding(TrimLeft(s), back);
      assert TrimRight(l) == TrimRight(TrimLeft(s));
    }
  }

  /** Stripping twice is the same as stripping once. */
  lemma TrimIdempotent(s: string)
    ensures Trim(Trim(s)) == Trim(s)
  {
    var r := Trim(s);
    assert TrimLeft(r) == r;
    assert TrimRight(r) == r;
  }

  // ---------------------------------------------------------------- replace

  /** `str.replace(c, '')`: every occurrence of `c` is removed, nothing else changes. */
  function Remove(s: string, c: char): (r: string)
    ensures c !in r
    ensures c !in s ==> r == s
  {
    if s == [] then []
    else
      var rest := Remove(s[1..], c);
      if s[0] == c then rest else [s[0]] + rest
  }

  /** Removing `c` keeps every other character, as many times as it occurred. */
  lemma {:induction false} RemoveKeepsOthers(s: string, c: char, d: char)
    requires d != c
    ensures multiset(Remove(s, c))[d] == multiset(s)[d]
  {
    if s != [] {
      RemoveKeepsOthers(s[1..], c, d);
      assert s == [s[0]] + s[1..];
    }
  }

  /** The amount cleaning of lines 146 and 191: drop thousands separators and the won sign. */
  function CleanAmountText(s: string): (r: string)
    ensures r == Remove(Remove(s, ','), '원')
    ensures ',' !in r && '원' !in r
    ensures ',' !in s && '원' !in s ==> r == s
  {
    var r := Remove(Remove(s, ','), '원');
    RemoveKeepsOthers(Remove(s, ','), '원', ',');
    assert multiset(r)[','] == multiset(Remove(s, ','))[','] == 0;
    r
  }

  // ---------------------------------------------------------------- int

  predicate IsDigit(c: char) {
    '0' <= c <= '9'
  }

  predicate AllDigits(s: string) {
    forall i :: 0 <= i < |s| ==> IsDigit(s[i])
  }

  function DigitsValue(s: string): nat
    requires AllDigits(s)
  {
    if s == [] then 0 else DigitsValue(s[..|s| - 1]) * 10 + (s[|s| - 1] as int - '0' as int)
  }

  /** The text `int(...)` accepts here: an optional sign followed by at least one digit. */
  predicate IsIntegerText(s: string) {
    if |s| > 0 && (s[0] == '-' || s[0] == '+') then |s| > 1 && AllDigits(s[1..])
    else |s| > 0 && AllDigits(s)
  }

  /** Integer conversion of a cleaned amount (`astype(int)` / `to_numeric`); None when it fails. */
  function ParseInt(s: string): (r: Option<int>)
    ensures r.Some? <==> IsIntegerText(s)
  {
    if |s| > 0 && (s[0] == '-' || s[0] == '+') then
      if |s| > 1 && AllDigits(s[1..]) then
        Some(if s[0] == '-' then -(DigitsValue(s[1..]) as int) else DigitsValue(s[1..]))
      else None
    else if |s| > 0 && AllDigits(s) then Some(DigitsValue(s))
    else None
  }

  /** Decimal rendering of a natural number, the inverse of DigitsValue. */
  function ShowNat(n: nat): (r: string)
    ensures |r| > 0 && AllDigits(r)
  {
    if n < 10 then [('0' as int + n) as char]
    else ShowNat(n / 10) + [('0' as int + n % 10) as char]
  }

  function ShowInt(n: int): string {
    if n < 0 then "-" + ShowNat(-n) else ShowNat(n)
  }

  lemma {:induction false} ShowNatValue(n: nat)
    ensures DigitsValue(ShowNat(n)) == n
  {
    var r := ShowNat(n);
    if n >= 10 {
      ShowNatValue(n / 10);
      assert r[..|r| - 1] == ShowNat(n / 10);
    }
  }

  /** Parsing the decimal text of any integer gives the integer back. */
  lemma ParseShowInt(n: int)
    ensures ParseInt(ShowInt(n)) == Some(n)
  {
    if n < 0 {
      ShowNatValue(-n);
      assert ShowInt(n)[1..] == ShowNat(-n);
    } else {
      ShowNatValue(n);
    }
  }

  /** Removing a character from a concatenation removes it from each part, keeping the order. */
  lemma {:induction false} RemoveConcat(a: string, b: string, c: char)
    ensures Remove(a + b, c) == Remove(a, c) + Remove(b, c)
  {
    if a == [] {
      assert a + b == b;
    } else {
      assert (a + b)[0] == a[0];
      assert (a + b)[1..] == a[1..] + b;
      RemoveConcat(a[1..], b, c);
    }
  }

  lemma DigitsLackSymbols(a: string)
    requires AllDigits(a)
    ensures ',' !in a && '원' !in a
  {
  }

  lemma DropSeparator(a: string, b: string)
    requires ',' !in a && ',' !in b
    ensures Remove(a + [','] + b + ['원'], ',') == a + b + ['원']
  {
    var sep: string := [','];
    var won: string := ['원'];
    assert Remove(sep, ',') == [];
    assert Remove(won, ',') == won;
    var left := a + sep;
    var right := b + won;
    RemoveConcat(a, sep, ',');
    assert Remove(left, ',') == a;
    RemoveConcat(b, won, ',');
    assert Remove(right, ',') == right;
    RemoveConcat(left, right, ',');
    assert a + sep + b + won == left + right;
  }

  lemma DropWon(t: string)
    requires '원' !in t
    ensures Remove(t + "원", '원') == t
  {
    RemoveConcat(t, "원", '원');
    assert Remove("원", '원') == [];
  }

  /** An amount written with a thousands separator and the won sign, such as "10,000원",
      cleans to its bare digits and so converts to the same number as "10000". */
  lemma CleanSeparatedAmount(a: string, b: string)
    requires AllDigits(a) && AllDigits(b) && |a + b| > 0
    ensures CleanAmountText(a + "," + b + "원") == a + b
    ensures ParseInt(CleanAmountText(a + "," + b + "원")) == Some(DigitsValue(a + b))
  {
    DigitsLackSymbols(a);
    DigitsLackSymbols(b);
    DropSeparator(a, b);
    assert AllDigits(a + b);
    DigitsLackSymbols(a + b);
    DropWon(a + b);
  }

  /** Cleaning works piece by piece: the cleaned text of a concatenation is the
      concatenation of the cleaned pieces, in order. */
  lemma {:induction false} CleanAmountConcat(a: string, b: string)
    ensures CleanAmountText(a + b) == CleanAmountText(a) + CleanAmountText(b)
  {
    RemoveConcat(a, b, ',');
    RemoveConcat(Remove(a, ','), Remove(b, ','), '원');
  }

  /** Cleaning one character drops `,` and `원` and keeps any other character. With
      CleanAmountConcat this fixes the cleaned text of every string. */
  lemma CleanAmountChar(c: char)
    ensures c == ',' || c == '원' ==> CleanAmountText([c]) == []
    ensures c != ',' && c != '원' ==> CleanAmountText([c]) == [c]
  {
    assert [c][1..] == [];
  }

  /** A plain won amount such as "5000원" cleans to its digits and converts to their value. */
  lemma {:induction false} CleanWonAmount(a: string)
    requires AllDigits(a) && |a| > 0
    ensures CleanAmountText(a + "원") == a
    ensures ParseInt(CleanAmountText(a + "원")) == Some(DigitsValue(a))
  {
    CleanAmountConcat(a, "원");
    CleanAmountChar('원');
    DigitsLackSymbols(a);
    assert a + [] == a;
  }

  /** "1,000,000원": two thousands separators and the won sign clean to the bare digits. */
  lemma {:induction false} CleanTwiceSeparatedAmount(a: string, b: string, c: string)
    requires AllDigits(a) && AllDigits(b) && AllDigits(c) && |a| > 0
    ensures CleanAmountText(a + "," + b + "," + c + "원") == a + b + c
  {
    DigitsLackSymbols(a);
    DigitsLackSymbols(b);
    DigitsLackSymbols(c);
    CleanAmountChar(',');
    CleanAmountChar('원');
    CleanAmountConcat(a, ",");
    CleanAmountConcat(a + ",", b);
    CleanAmountConcat(a + "," + b, ",");
    CleanAmountConcat(a + "," + b + ",", c);
    CleanAmountConcat(a + "," + b + "," + c, "원");
    assert a + [] == a;
  }
}
