/** Values, rows, tables and the small string rules of Python that the rest
    of the model relies on. */
module Common {

  datatype Option<T> = None | Some(value: T)

  /** The outcome of an operation that answers with an error dictionary
      (or raises) instead of a value. */
  datatype Result<T> = Ok(value: T) | Err(msg: string)

  /** A cell as the Python code sees it: a string, an integer, `None`, or
      pandas' NaN (what a data frame holds for a column its record lacks). */
  datatype Value = Str(s: string) | Int(i: int) | Null | NaN

  /** Python `==` on two cells: NaN equals nothing, not even itself. */
  predicate PyEq(a: Value, b: Value)
  {
    !a.NaN? && !b.NaN? && a == b
  }

  lemma PyEqSymmetric(a: Value, b: Value)
    ensures PyEq(a, b) == PyEq(b, a)
  {
  }

  /** A pandas row: its index (the columns of the frame it comes from) and the
      cells its record actually carries. */
  datatype Row = Row(index: seq<string>, cells: map<string, Value>)

  /** `col in row.index` */
  predicate Has(r: Row, col: string)
  {
    col in r.index
  }

  /** `row[col]` for a column of the index: NaN when the record lacks it. */
  function Get(r: Row, col: string): Value
  {
    if col in r.index && col in r.cells then r.cells[col] else NaN
  }

  /** A data frame built from a list of records, with its column order. */
  datatype Table = Table(columns: seq<string>, records: seq<map<string, Value>>)

  function RowAt(t: Table, i: nat): (r: Row)
    requires i < |t.records|
    ensures r.index == t.columns
  {
    Row(t.columns, t.records[i])
  }

  /** `df.empty`: no rows or no columns. */
  predicate IsEmpty(t: Table)
  {
    |t.records| == 0 || |t.columns| == 0
  }

  /** Index of the first row whose `id_inquilino` equals `id`, as
      `df[df['id_inquilino'] == id].iloc[0]` selects it. */
  function FindRow(t: Table, id: int): (r: Option<nat>)
    ensures r.Some? ==> r.value < |t.records| && PyEq(Get(RowAt(t, r.value), "id_inquilino"), Int(id))
    ensures r.Some? ==> forall k :: 0 <= k < r.value ==> !PyEq(Get(RowAt(t, k), "id_inquilino"), Int(id))
    ensures r.None? <==> !HasId(t, id)
  {
    FindIdFrom(t, Int(id), 0)
  }

  /** The same selection for an identifier held in a cell, which may be of
      any kind. */
  function FindIdFrom(t: Table, v: Value, from: nat): (r: Option<nat>)
    requires from <= |t.records|
    ensures r.Some? ==> from <= r.value < |t.records| && PyEq(Get(RowAt(t, r.value), "id_inquilino"), v)
    ensures r.Some? ==> forall k :: from <= k < r.value ==> !PyEq(Get(RowAt(t, k), "id_inquilino"), v)
    ensures r.None? <==> forall k :: from <= k < |t.records| ==> !PyEq(Get(RowAt(t, k), "id_inquilino"), v)
    decreases |t.records| - from
  {
    if from == |t.records| then None
    else if PyEq(Get(RowAt(t, from), "id_inquilino"), v) then Some(from)
    else FindIdFrom(t, v, from + 1)
  }

  /** `id in df['id_inquilino'].values` */
  predicate HasId(t: Table, id: int)
  {
    exists k :: 0 <= k < |t.records| && PyEq(Get(RowAt(t, k), "id_inquilino"), Int(id))
  }

  // ---------------------------------------------------------------------
  // Strings
  // ---------------------------------------------------------------------

  /** The three letters outside Latin-1 that Python's case mappings of a
      Latin-1 letter produce: the title case of 'ÿ' and of 'µ', and the
      lower case of the latter. */
  const CapitalYDiaeresis: char := '\U{0178}'
  const GreekCapitalMu: char := '\U{039C}'
  const GreekSmallMu: char := '\U{03BC}'

  predicate IsUpper(c: char)
  {
    ('A' <= c <= 'Z') || ('À' <= c <= 'Þ' && c != '×') || c == CapitalYDiaeresis || c == GreekCapitalMu
  }

  /** Lower-case letters, with 'ª' and 'º', which Unicode counts as lower
      case although they have no upper case. */
  predicate IsLower(c: char)
  {
    ('a' <= c <= 'z') || ('ß' <= c <= 'ÿ' && c != '÷') || c == 'ª' || c == 'µ' || c == 'º' || c == GreekSmallMu
  }

  /** A letter that has case (`str.title` starts a word at one). */
  predicate IsCased(c: char)
  {
    IsUpper(c) || IsLower(c)
  }

  /** Python's lower-case mapping of one character. */
  function LowerChar(c: char): (r: char)
    ensures IsCased(r) == IsCased(c)
    ensures !IsCased(c) ==> r == c
    ensures IsLower(r) || !IsCased(c)
  {
    if ('A' <= c <= 'Z') || ('À' <= c <= 'Þ' && c != '×') then (c as int + 32) as char
    else if c == CapitalYDiaeresis then 'ÿ'
    else if c == GreekCapitalMu then GreekSmallMu
    else c
  }

  /** Python's full title-case mapping of one character: 'ß' becomes the
      two letters "Ss", 'ÿ' and 'µ' leave Latin-1. */
  function TitleChar(c: char): (r: string)
    ensures |r| == (if c == 'ß' then 2 else 1)
    ensures !IsCased(c) ==> r == [c]
    ensures forall k :: 0 <= k < |r| ==> IsCased(r[k]) == IsCased(c)
  {
    if ('a' <= c <= 'z') || ('à' <= c <= 'þ' && c != '÷') then [(c as int - 32) as char]
    else if c == 'ß' then "Ss"
    else if c == 'ÿ' then [CapitalYDiaeresis]
    else if c == 'µ' || c == GreekSmallMu then [GreekCapitalMu]
    else [c]
  }

  /** Lower-casing a lower-cased letter changes nothing. */
  lemma LowerCharIdempotent(c: char)
    ensures LowerChar(LowerChar(c)) == LowerChar(c)
  {
  }

  /** A title-cased letter is its own title case, and what follows its
      first character is already lower case. */
  lemma TitleCharStable(c: char)
    requires IsCased(c)
    ensures TitleChar(TitleChar(c)[0]) == [TitleChar(c)[0]]
    ensures forall k :: 1 <= k < |TitleChar(c)| ==> LowerChar(TitleChar(c)[k]) == TitleChar(c)[k]
  {
  }

  /** `str.lower()` */
  function Lower(s: string): (r: string)
    ensures |r| == |s|
    ensures forall i :: 0 <= i < |s| ==> r[i] == LowerChar(s[i])
  {
    seq(|s|, i requires 0 <= i < |s| => LowerChar(s[i]))
  }

  predicate StartsWith(s: string, prefix: string)
  {
    |prefix| <= |s| && s[..|prefix|] == prefix
  }

  /** Python's `sub in s` on strings. */
  predicate Contains(s: string, sub: string)
    decreases |s|
  {
    StartsWith(s, sub) || (|s| > 0 && Contains(s[1..], sub))
  }

  lemma {:induction false} ContainsAt(s: string, sub: string, k: nat)
    requires k + |sub| <= |s| && s[k..k + |sub|] == sub
    ensures Contains(s, sub)
    decreases k
  {
    if k == 0 {
      assert s[..|sub|] == s[0..|sub|];
    } else {
      assert s[1..][k - 1..k - 1 + |sub|] == s[k..k + |sub|];
      ContainsAt(s[1..], sub, k - 1);
    }
  }

  /** A string that contains `sub` holds it at some position. */
  lemma {:induction false} ContainsWitness(s: string, sub: string) returns (k: nat)
    requires Contains(s, sub)
    ensures k + |sub| <= |s| && s[k..k + |sub|] == sub
    decreases |s|
  {
    if StartsWith(s, sub) {
      k := 0;
      assert s[0..|sub|] == s[..|sub|];
    } else {
      var j := ContainsWitness(s[1..], sub);
      assert s[1..][j..j + |sub|] == s[j + 1..j + 1 + |sub|];
      k := j + 1;
    }
  }

  /** `b in a and a in s` implies `b in s`. */
  lemma ContainsTrans(s: string, a: string, b: string)
    requires Contains(s, a) && Contains(a, b)
    ensures Contains(s, b)
  {
    var i := ContainsWitness(s, a);
    var j := ContainsWitness(a, b);
    forall m | 0 <= m < |b|
      ensures s[i + j..i + j + |b|][m] == b[m]
    {
      assert s[i + j + m] == s[i..i + |a|][j + m] == a[j + m] == a[j..j + |b|][m];
    }
    assert s[i + j..i + j + |b|] == b;
    ContainsAt(s, b, i + j);
  }

  /** Every character of a contained string occurs in the container. */
  lemma ContainsChar(s: string, sub: string, i: nat)
    requires Contains(s, sub) && i < |sub|
    ensures sub[i] in s
  {
    var k := ContainsWitness(s, sub);
    assert s[k + i] == s[k..k + |sub|][i];
  }

  /** A string holding a character that `s` lacks is not contained in `s`. */
  lemma MissingChar(s: string, sub: string, i: nat)
    requires i < |sub| && sub[i] !in s
    ensures !Contains(s, sub)
  {
    if Contains(s, sub) {
      ContainsChar(s, sub, i);
    }
  }

  /** Every string contains itself: a term always matches a message equal to it. */
  lemma ContainsSelf(s: string)
    ensures Contains(s, s)
  {
    assert s[..|s|] == s;
  }

  /** `s.replace(a, b)` for single characters. */
  function ReplaceChar(s: string, a: char, b: char): (r: string)
    ensures |r| == |s|
    ensures forall i :: 0 <= i < |s| ==> r[i] == (if s[i] == a then b else s[i])
  {
    seq(|s|, i requires 0 <= i < |s| => if s[i] == a then b else s[i])
  }

  /** What `str.title()` writes for the character `c`: a letter after a
      cased character is lower-cased, any other letter title-cased, and a
      character without case is kept. */
  function CaseMapped(c: char, afterCased: bool): (r: string)
    ensures 1 <= |r| <= 2
    ensures |r| == 2 <==> c == 'ß' && !afterCased
    ensures forall k :: 0 <= k < |r| ==> IsCased(r[k]) == IsCased(c)
    ensures !IsCased(c) ==> r == [c]
    ensures IsSpace(r[0]) || IsSpace(r[|r| - 1]) ==> r == [c]
  {
    if !IsCased(c) then [c] else if afterCased then [LowerChar(c)] else TitleChar(c)
  }

  /** The number of word-initial 'ß' from here on: each one becomes "Ss". */
  function SharpStarts(s: string, afterCased: bool): (n: nat)
    ensures n <= |s|
    decreases |s|
  {
    if s == [] then 0
    else (if s[0] == 'ß' && !afterCased then 1 else 0) + SharpStarts(s[1..], IsCased(s[0]))
  }

  /** Without a 'ß' there is no word-initial one. */
  lemma {:induction false} NoSharpNoStarts(s: string, afterCased: bool)
    ensures (forall k :: 0 <= k < |s| ==> s[k] != 'ß') ==> SharpStarts(s, afterCased) == 0
    decreases |s|
  {
    if s != [] {
      NoSharpNoStarts(s[1..], IsCased(s[0]));
      if forall k :: 0 <= k < |s| ==> s[k] != 'ß' {
        assert s[0] != 'ß';
        assert forall k :: 0 <= k < |s[1..]| ==> s[1..][k] == s[k + 1];
      }
    }
  }

  /** `str.title()` continued after a character that was (or was not)
      cased; it is longer than its argument by one for every word-initial
      'ß'. */
  function TitleFrom(s: string, afterCased: bool): (r: string)
    ensures |r| == |s| + SharpStarts(s, afterCased)
    decreases |s|
  {
    if s == [] then []
    else CaseMapped(s[0], afterCased) + TitleFrom(s[1..], IsCased(s[0]))
  }

  /** `str.title()`: the first cased letter of every run of letters is
      title-cased, the others lower-cased. Only a word-initial 'ß' makes
      the result longer. */
  function Title(s: string): (r: string)
    ensures |r| == |s| + SharpStarts(s, false)
    ensures |s| <= |r| <= 2 * |s|
    ensures (forall k :: 0 <= k < |s| ==> s[k] != 'ß') ==> |r| == |s|
  {
    NoSharpNoStarts(s, false);
    TitleFrom(s, false)
  }

  /** Whether the character before the rest of a string is cased, having
      read `p` after `afterCased`. */
  function CasedAfter(p: string, afterCased: bool): bool
  {
    if p == [] then afterCased else IsCased(p[|p| - 1])
  }

  /** Title-casing a concatenation is title-casing each part in turn. */
  lemma {:induction false} TitleFromAppend(p: string, q: string, afterCased: bool)
    ensures TitleFrom(p + q, afterCased) == TitleFrom(p, afterCased) + TitleFrom(q, CasedAfter(p, afterCased))
    decreases |p|
  {
    if p == [] {
      assert p + q == q;
    } else {
      var m := CaseMapped(p[0], afterCased);
      var a := IsCased(p[0]);
      var after := CasedAfter(p, afterCased);
      calc {
        TitleFrom(p + q, afterCased);
        == { assert (p + q)[0] == p[0]; assert (p + q)[1..] == p[1..] + q; }
        m + TitleFrom(p[1..] + q, a);
        == { TitleFromAppend(p[1..], q, a); CasedAfterTail(p, afterCased); }
        m + (TitleFrom(p[1..], a) + TitleFrom(q, after));
        == { SeqAssoc(m, TitleFrom(p[1..], a), TitleFrom(q, after)); }
        (m + TitleFrom(p[1..], a)) + TitleFrom(q, after);
      }
    }
  }

  lemma CasedAfterTail(p: string, afterCased: bool)
    requires p != []
    ensures CasedAfter(p[1..], IsCased(p[0])) == CasedAfter(p, afterCased)
  {
    if |p| > 1 {
      assert p[1..][|p| - 2] == p[|p| - 1];
    }
  }

  /** Concatenation is associative. */
  lemma SeqAssoc<T>(a: seq<T>, b: seq<T>, c: seq<T>)
    ensures a + (b + c) == (a + b) + c
  {
  }

  /** What title-casing writes for one character is left as it is by
      title-casing it again, and ends cased exactly when the character is. */
  lemma CaseMappedStable(c: char, afterCased: bool)
    ensures TitleFrom(CaseMapped(c, afterCased), afterCased) == CaseMapped(c, afterCased)
    ensures CasedAfter(CaseMapped(c, afterCased), afterCased) == IsCased(c)
  {
    var m := CaseMapped(c, afterCased);
    if IsCased(c) && afterCased {
      LowerCharIdempotent(c);
      assert TitleFrom(m, afterCased) == CaseMapped(m[0], true) + TitleFrom([], true);
    } else if IsCased(c) {
      TitleCharStable(c);
      if |m| == 2 {
        assert m[1..][1..] == [];
        assert TitleFrom(m[1..], true) == CaseMapped(m[1], true) + TitleFrom([], true);
      } else {
        assert m[1..] == [];
      }
    }
  }

  lemma {:induction false} TitleFromIdempotent(s: string, afterCased: bool)
    ensures TitleFrom(TitleFrom(s, afterCased), afterCased) == TitleFrom(s, afterCased)
    decreases |s|
  {
    if s != [] {
      var m := CaseMapped(s[0], afterCased);
      var rest := TitleFrom(s[1..], IsCased(s[0]));
      TitleFromAppend(m, rest, afterCased);
      CaseMappedStable(s[0], afterCased);
      TitleFromIdempotent(s[1..], IsCased(s[0]));
    }
  }

  /** A word-initial 'ß' title-cases to the two letters "Ss". */
  lemma TitleSharpS()
    ensures Title("ßa") == "Ssa"
  {
    assert Title("ßa") == "Ss" + TitleFrom("a", true);
  }

  /** A word-initial 'µ' title-cases to the Greek capital mu, and the
      letter after it is lower-cased. */
  lemma TitleMicro()
    ensures Title("µX") == [GreekCapitalMu, 'x']
  {
    assert Title("µX") == [GreekCapitalMu] + TitleFrom("X", true);
  }

  /** A word-initial 'ÿ' title-cases to 'Ÿ', outside Latin-1. */
  lemma TitleYDiaeresis()
    ensures Title("ÿ") == [CapitalYDiaeresis]
  {
    assert Title("ÿ") == [CapitalYDiaeresis] + TitleFrom("", true);
  }

  /** 'ª' has no upper case but counts as cased, so the letter after it
      is lower-cased. */
  lemma TitleOrdinal()
    ensures Title("ªB") == "ªb"
  {
    assert Title("ªB") == "ª" + TitleFrom("B", true);
  }

  /** Title-casing twice is title-casing once. */
  lemma TitleIdempotent(s: string)
    ensures Title(Title(s)) == Title(s)
  {
    TitleFromIdempotent(s, false);
  }

  predicate IsSpace(c: char)
  {
    c == ' ' || c == '\t' || c == '\n' || c == '\r' || c == '\U{0B}' || c == '\U{0C}'
  }

  /** The number of whitespace characters `s` starts with. */
  function Leading(s: string): (n: nat)
    ensures n <= |s|
    ensures forall i :: 0 <= i < n ==> IsSpace(s[i])
    ensures n < |s| ==> !IsSpace(s[n])
    decreases |s|
  {
    if s != [] && IsSpace(s[0]) then 1 + Leading(s[1..]) else 0
  }

  /** The number of whitespace characters `s` ends with. */
  function Trailing(s: string): (n: nat)
    ensures n <= |s|
    ensures forall i :: |s| - n <= i < |s| ==> IsSpace(s[i])
    ensures n < |s| ==> !IsSpace(s[|s| - 1 - n])
    decreases |s|
  {
    if s != [] && IsSpace(s[|s| - 1]) then 1 + Trailing(s[..|s| - 1]) else 0
  }

  /** `str.strip()` */
  function Strip(s: string): (r: string)
    ensures |r| <= |s|
    ensures r != [] ==> !IsSpace(r[0]) && !IsSpace(r[|r| - 1])
  {
    var t := s[Leading(s)..];
    t[..|t| - Trailing(t)]
  }

  lemma StripIdempotent(s: string)
    ensures Strip(Strip(s)) == Strip(s)
  {
    var r := Strip(s);
    if r != [] {
      assert Leading(r) == 0;
      assert r[0..] == r;
      assert Trailing(r) == 0;
    }
  }

  /** A string of whitespace only strips to the empty string. */
  lemma StripBlank(s: string)
    requires forall i :: 0 <= i < |s| ==> IsSpace(s[i])
    ensures Strip(s) == []
  {
  }

  predicate IsDigit(c: char)
  {
    '0' <= c <= '9'
  }

  function DigitChar(d: nat): (c: char)
    requires d < 10
    ensures IsDigit(c)
  {
    ('0' as int + d) as char
  }

  function DigitValue(c: char): (d: nat)
    requires IsDigit(c)
    ensures d < 10 && DigitChar(d) == c
  {
    c as int - '0' as int
  }

  /** Decimal digits of `n`, as `str(n)` writes them. */
  function NatToString(n: nat): (r: string)
    ensures |r| > 0
    ensures forall i :: 0 <= i < |r| ==> IsDigit(r[i])
    decreases n
  {
    if n < 10 then [DigitChar(n)] else NatToString(n / 10) + [DigitChar(n % 10)]
  }

  /** The value of a string of decimal digits. */
  function DigitsValue(s: string): nat
    requires forall i :: 0 <= i < |s| ==> IsDigit(s[i])
    decreases |s|
  {
    if s == [] then 0 else DigitsValue(s[..|s| - 1]) * 10 + DigitValue(s[|s| - 1])
  }

  lemma {:induction false} DigitsRoundTrip(n: nat)
    ensures DigitsValue(NatToString(n)) == n
    decreases n
  {
    if n >= 10 {
      var s := NatToString(n);
      assert s[..|s| - 1] == NatToString(n / 10);
      DigitsRoundTrip(n / 10);
    }
  }

  function IntToString(i: int): (r: string)
    ensures |r| > 0
  {
    if i < 0 then "-" + NatToString(-i) else NatToString(i)
  }

  /** `str(v)`. */
  function Display(v: Value): string
  {
    match v
    case Str(s) => s
    case Int(i) => IntToString(i)
    case Null => "None"
    case NaN => "nan"
  }

  /** A value that holds only digits and a minus sign is never one of the
      lower-case words the rules compare with, so `str()` of an integer
      never satisfies those comparisons. */
  lemma IntDisplayHasNoLetter(i: int, k: nat)
    requires k < |Display(Int(i))|
    ensures !IsCased(Lower(Display(Int(i)))[k])
  {
    if i < 0 {
      assert Display(Int(i)) == "-" + NatToString(-i);
      if k > 0 {
        assert Display(Int(i))[k] == NatToString(-i)[k - 1];
      }
    }
  }

  // ---------------------------------------------------------------------
  // Sequences
  // ---------------------------------------------------------------------

  function Min(a: int, b: int): int
  {
    if a <= b then a else b
  }

  /** `s[:n]` */
  function Take<T>(s: seq<T>, n: nat): (r: seq<T>)
    ensures |r| == Min(n, |s|)
    ensures forall i :: 0 <= i < |r| ==> r[i] == s[i]
  {
    if n <= |s| then s[..n] else s
  }

  /** A prefix takes its elements from the sequence. */
  lemma TakeSubMultiset<T>(s: seq<T>, n: nat)
    ensures multiset(Take(s, n)) <= multiset(s)
  {
    if n <= |s| {
      assert s == s[..n] + s[n..];
    }
  }

  /** `s[-n:]` */
  function Last<T>(s: seq<T>, n: nat): (r: seq<T>)
    ensures |r| == Min(n, |s|)
    ensures r == s[|s| - |r|..]
  {
    if |s| > n then s[|s| - n..] else s
  }

  predicate Distinct<T(==)>(s: seq<T>)
  {
    forall i, j :: 0 <= i < j < |s| ==> s[i] != s[j]
  }

  /** Number of positions of `s` holding `x`. */
  function Count<T(==)>(s: seq<T>, x: T): (n: nat)
    ensures n <= |s|
    ensures n > 0 <==> x in s
  {
    if s == [] then 0 else (if s[0] == x then 1 else 0) + Count(s[1..], x)
  }

  lemma {:induction false} CountAppend<T>(a: seq<T>, b: seq<T>, x: T)
    ensures Count(a + b, x) == Count(a, x) + Count(b, x)
    decreases |a|
  {
    if a != [] {
      assert (a + b)[1..] == a[1..] + b;
      assert (a + b)[0] == a[0];
      CountAppend(a[1..], b, x);
    } else {
      assert a + b == b;
    }
  }

  /** The distinct elements of `s`, each once, in order of first appearance
      (the groups `np.unique` yields; their order never matters here). */
  function Dedup<T(==,!new)>(s: seq<T>): (r: seq<T>)
    ensures Distinct(r)
    ensures forall x :: x in r <==> x in s
    ensures |r| <= |s|
    decreases |s|
  {
    if s == [] then []
    else
      var r := Dedup(s[..|s| - 1]);
      assert forall x :: x in s <==> x in s[..|s| - 1] || x == s[|s| - 1];
      if s[|s| - 1] in r then r else r + [s[|s| - 1]]
  }

  /** Two distinct groups exist exactly when deduplication leaves more than one. */
  lemma {:induction false} DedupMoreThanOne<T(!new)>(s: seq<T>)
    ensures |Dedup(s)| > 1 <==> exists i, j :: 0 <= i < |s| && 0 <= j < |s| && s[i] != s[j]
  {
    var r := Dedup(s);
    if |r| > 1 {
      assert r[0] in s && r[1] in s;
      var i :| 0 <= i < |s| && s[i] == r[0];
      var j :| 0 <= j < |s| && s[j] == r[1];
      assert s[i] != s[j];
    }
    if exists i, j :: 0 <= i < |s| && 0 <= j < |s| && s[i] != s[j] {
      var i, j :| 0 <= i < |s| && 0 <= j < |s| && s[i] != s[j];
      assert s[i] in r && s[j] in r;
      var a :| 0 <= a < |r| && r[a] == s[i];
      var b :| 0 <= b < |r| && r[b] == s[j];
      assert a != b;
    }
  }

  /** A list without repetitions inside a set is no longer than the set. */
  lemma {:induction false} DistinctWithin<T>(a: seq<T>, b: set<T>)
    requires Distinct(a)
    requires forall i :: 0 <= i < |a| ==> a[i] in b
    ensures |a| <= |b|
    decreases |a|
  {
    if a != [] {
      assert a[0] !in a[1..];
      forall i | 0 <= i < |a[1..]|
        ensures a[1..][i] in b - {a[0]}
      {
        assert a[1..][i] == a[i + 1];
      }
      DistinctWithin(a[1..], b - {a[0]});
    }
  }

  /** The set of a list's elements is no larger than the list. */
  lemma {:induction false} ElementsCard<T>(s: seq<T>)
    ensures |set x | x in s| <= |s|
    decreases |s|
  {
    if s != [] {
      ElementsCard(s[1..]);
      assert (set x | x in s) == (set x | x in s[1..]) + {s[0]};
    }
  }

  /** `int(v)` on a cell: integers, and strings of decimal digits. */
  function IntOf(v: Value): (r: Option<int>)
    ensures v.Int? ==> r == Some(v.i)
    ensures v.Null? || v.NaN? ==> r.None?
  {
    match v
    case Int(i) => Some(i)
    case Str(s) =>
      if s != [] && forall k :: 0 <= k < |s| ==> IsDigit(s[k]) then Some(DigitsValue(s)) else None
    case Null => None
    case NaN => None
  }

  /** The digits of a Python integer literal: decimal digits, with single
      underscores allowed between two of them. */
  predicate Literal(s: string)
  {
    s != [] && IsDigit(s[0]) && IsDigit(s[|s| - 1]) && forall i :: 0 <= i < |s| ==> Grouped(s, i)
  }

  /** Position `i` holds a digit, or an underscore between two digits. */
  predicate Grouped(s: string, i: nat)
    requires i < |s|
  {
    IsDigit(s[i]) || (s[i] == '_' && 0 < i < |s| - 1 && IsDigit(s[i - 1]) && IsDigit(s[i + 1]))
  }

  /** `s.replace("_", "")` */
  function DropUnderscores(s: string): (r: string)
    ensures |r| <= |s|
    ensures (forall i :: 0 <= i < |s| ==> IsDigit(s[i]) || s[i] == '_') ==> forall i :: 0 <= i < |r| ==> IsDigit(r[i])
    ensures (forall i :: 0 <= i < |s| ==> IsDigit(s[i])) ==> r == s
    decreases |s|
  {
    if s == [] then []
    else (if s[0] == '_' then [] else [s[0]]) + DropUnderscores(s[1..])
  }

  /** Without its underscores a literal is a string of digits. */
  lemma LiteralDigits(s: string)
    requires Literal(s)
    ensures forall i :: 0 <= i < |DropUnderscores(s)| ==> IsDigit(DropUnderscores(s)[i])
  {
    forall i | 0 <= i < |s|
      ensures IsDigit(s[i]) || s[i] == '_'
    {
      assert Grouped(s, i);
    }
  }

  /** Python's `int(s)` on a string: surrounding whitespace is stripped,
      one sign may lead, and the digits may be grouped with underscores;
      anything else raises (`None`). */
  function PyInt(s: string): (r: Option<int>)
    ensures r.Some? ==> Strip(s) != []
  {
    var u := Strip(s);
    if u != [] && (u[0] == '+' || u[0] == '-') && Literal(u[1..]) then
      LiteralDigits(u[1..]);
      var n: int := DigitsValue(DropUnderscores(u[1..]));
      Some(if u[0] == '-' then -n else n)
    else if Literal(u) then
      LiteralDigits(u);
      Some(DigitsValue(DropUnderscores(u)))
    else None
  }

  /** Python `int(v)` on a stored cell: an integer is itself, a text is
      read as `int(str)` does, and a missing value raises. */
  function PyIntOf(v: Value): (r: Option<int>)
    ensures v.Int? ==> r == Some(v.i)
    ensures v.Str? ==> r == PyInt(v.s)
    ensures v.Null? || v.NaN? ==> r.None?
  {
    match v
    case Int(i) => Some(i)
    case Str(s) => PyInt(s)
    case _ => None
  }

  /** A string of digits has no blanks to strip. */
  lemma StripDigits(s: string)
    requires forall i :: 0 <= i < |s| ==> IsDigit(s[i]) || s[i] == '-'
    ensures Strip(s) == s
  {
  }

  /** On a plain string of digits `int()` agrees with the cell cast. */
  lemma PyIntDigits(s: string)
    requires s != [] && forall i :: 0 <= i < |s| ==> IsDigit(s[i])
    ensures PyInt(s) == IntOf(Str(s))
  {
    StripDigits(s);
  }

  /** Blanks around the text do not change what `int()` reads. */
  lemma PyIntStrips(s: string)
    ensures PyInt(Strip(s)) == PyInt(s)
  {
    StripIdempotent(s);
  }

  /** `int(str(-n))` is `-n`: the sign is read. */
  lemma PyIntNegative(n: nat)
    ensures PyInt("-" + NatToString(n)) == Some(-(n as int))
  {
    var d := NatToString(n);
    var u := "-" + d;
    assert forall i :: 0 <= i < |u| ==> IsDigit(u[i]) || u[i] == '-' by {
      assert forall i :: 1 <= i < |u| ==> u[i] == d[i - 1];
    }
    StripDigits(u);
    assert u[0] == '-' && u[1..] == d;
    assert Literal(d) by {
      assert forall i :: 0 <= i < |d| ==> Grouped(d, i);
    }
    assert DropUnderscores(d) == d;
    DigitsRoundTrip(n);
  }

  /** `int("1__0")` raises: underscores come one at a time. */
  lemma PyIntDoubleUnderscore()
    ensures PyInt("1__0") == None
  {
    StripDigits("1");
    assert Leading("1__0") == 0 && Trailing("1__0") == 0;
    assert Strip("1__0") == "1__0";
    assert !Grouped("1__0", 1);
  }

  function Abs(x: real): (r: real)
    ensures r >= 0.0 && (r == x || r == -x)
  {
    if x < 0.0 then -x else x
  }

  /** `max(lo, min(hi, x))` */
  function Clamp(lo: real, hi: real, x: real): (r: real)
    requires lo <= hi
    ensures lo <= r <= hi
    ensures lo <= x <= hi ==> r == x
    ensures x < lo ==> r == lo
    ensures x > hi ==> r == hi
  {
    if x < lo then lo else if x > hi then hi else x
  }

  /** The share `a / b` of a part in a non-empty whole lies in [0, 1], and
      is 0 or 1 exactly for the empty and the full part. */
  lemma Share(a: nat, b: nat)
    requires a <= b && b > 0
    ensures 0.0 <= (a as real) / (b as real) <= 1.0
    ensures (a as real) / (b as real) == 0.0 <==> a == 0
    ensures (a as real) / (b as real) == 1.0 <==> a == b
  {
    var q := (a as real) / (b as real);
    assert q * (b as real) == a as real;
  }

  /** `[x for x in s if p(x)]` */
  function Filter<T(!new)>(s: seq<T>, p: T -> bool): (r: seq<T>)
    ensures |r| <= |s|
    ensures forall i :: 0 <= i < |r| ==> p(r[i])
  {
    if s == [] then []
    else (if p(s[0]) then [s[0]] else []) + Filter(s[1..], p)
  }

  lemma {:induction false} FilterMembers<T(!new)>(s: seq<T>, p: T -> bool)
    ensures forall x :: x in Filter(s, p) <==> x in s && p(x)
    decreases |s|
  {
    if s != [] {
      FilterMembers(s[1..], p);
      assert s == [s[0]] + s[1..];
    }
  }

  lemma {:induction false} FilterAppend<T(!new)>(a: seq<T>, b: seq<T>, p: T -> bool)
    ensures Filter(a + b, p) == Filter(a, p) + Filter(b, p)
    decreases |a|
  {
    if a == [] {
      assert a + b == b;
    } else {
      var h := if p(a[0]) then [a[0]] else [];
      assert (a + b)[0] == a[0] && (a + b)[1..] == a[1..] + b;
      assert Filter(a + b, p) == h + Filter(a[1..] + b, p);
      FilterAppend(a[1..], b, p);
      assert Filter(a, p) == h + Filter(a[1..], p);
      assert h + (Filter(a[1..], p) + Filter(b, p)) == (h + Filter(a[1..], p)) + Filter(b, p);
    }
  }

  /** Two filters with disjoint conditions pick at most `|s|` elements
      together. */
  lemma {:induction false} FilterDisjoint<T(!new)>(s: seq<T>, p: T -> bool, q: T -> bool)
    requires forall x :: !(p(x) && q(x))
    ensures |Filter(s, p)| + |Filter(s, q)| <= |s|
    decreases |s|
  {
    if s != [] {
      FilterDisjoint(s[1..], p, q);
    }
  }

  /** `sep.join(parts)` */
  function Join(parts: seq<string>, sep: string): string
  {
    if parts == [] then ""
    else if |parts| == 1 then parts[0]
    else parts[0] + sep + Join(parts[1..], sep)
  }
}
