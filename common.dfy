/**
 * Shared vocabulary: optional values and results, the parts of Python's
 * string semantics the handlers rely on (whitespace, strip, lower/upper,
 * decimal digits, substring tests), SQL placeholder counting and the
 * pagination arithmetic every list endpoint repeats.
 */
module Common {

  datatype Option<+T> = None | Some(value: T)

  datatype Result<+T, +E> = Ok(value: T) | Err(error: E)

  function Min(a: int, b: int): int { if a <= b then a else b }

  function Max(a: int, b: int): int { if a <= b then b else a }

  // ---------------------------------------------------------------------
  // Python's notion of whitespace (str.isspace), as used by str.strip()
  // ---------------------------------------------------------------------

  predicate IsSpace(c: char)
  {
    || ('\t' <= c <= '\r')                      // \t \n \v \f \r
    || ('\U{001C}' <= c <= '\U{001F}')          // file/group/record/unit separators
    || c == ' ' || c == '\U{0085}' || c == '\U{00A0}' || c == '\U{1680}'
    || ('\U{2000}' <= c <= '\U{200A}')
    || c == '\U{2028}' || c == '\U{2029}' || c == '\U{202F}' || c == '\U{205F}'
    || c == '\U{3000}'
  }

  /** `not s or not s.strip()`: the string is empty or only whitespace. */
  predicate IsBlank(s: string)
  {
    forall i :: 0 <= i < |s| ==> IsSpace(s[i])
  }

  function TrimStart(s: string): (r: string)
    ensures |r| <= |s|
    ensures r == [] || !IsSpace(r[0])
    ensures forall i :: 0 <= i < |s| - |r| ==> IsSpace(s[i])
  {
    if s != [] && IsSpace(s[0]) then TrimStart(s[1..]) else s
  }

  function TrimEnd(s: string): (r: string)
    ensures |r| <= |s|
    ensures r == [] || !IsSpace(r[|r| - 1])
    ensures forall i :: |r| <= i < |s| ==> IsSpace(s[i])
  {
    if s != [] && IsSpace(s[|s| - 1]) then TrimEnd(s[..|s| - 1]) else s
  }

  /** Trimming the start leaves a suffix of the input. */
  lemma {:induction false} TrimStartIsSuffix(s: string)
    ensures TrimStart(s) == s[|s| - |TrimStart(s)|..]
  {
    if s != [] && IsSpace(s[0]) {
      TrimStartIsSuffix(s[1..]);
    }
  }

  /** Trimming the end leaves a prefix of the input. */
  lemma {:induction false} TrimEndIsPrefix(s: string)
    ensures TrimEnd(s) == s[..|TrimEnd(s)|]
  {
    if s != [] && IsSpace(s[|s| - 1]) {
      TrimEndIsPrefix(s[..|s| - 1]);
    }
  }

  /** Python's `s.strip()`: no longer than its input, with no whitespace at either end. */
  function Strip(s: string): (r: string)
    ensures |r| <= |s|
    ensures r == [] || (!IsSpace(r[0]) && !IsSpace(r[|r| - 1]))
  {
    TrimEndIsPrefix(TrimStart(s));
    TrimEnd(TrimStart(s))
  }

  /** What strip() keeps is a contiguous slice of the input with no whitespace at either end. */
  lemma StripIsSlice(s: string) returns (a: nat, b: nat)
    ensures a <= b <= |s| && Strip(s) == s[a..b]
    ensures forall i :: 0 <= i < a ==> IsSpace(s[i])
    ensures forall i :: b <= i < |s| ==> IsSpace(s[i])
    ensures Strip(s) == [] || (!IsSpace(Strip(s)[0]) && !IsSpace(Strip(s)[|Strip(s)| - 1]))
  {
    var t := TrimStart(s);
    var u := TrimEnd(t);
    a := |s| - |t|;
    b := a + |u|;
    TrimStartIsSuffix(s);
    TrimEndIsPrefix(t);
    assert u == s[a..b];
    SpacesAfter(s, a, t, u);
    if u != [] {
      assert u[0] == t[0];
    }
  }

  lemma SpacesAfter(s: string, a: nat, t: string, u: string)
    requires a <= |s| && t == s[a..] && |u| <= |t|
    requires forall i :: |u| <= i < |t| ==> IsSpace(t[i])
    ensures forall i :: a + |u| <= i < |s| ==> IsSpace(s[i])
  {
    forall i | a + |u| <= i < |s| ensures IsSpace(s[i]) {
      assert s[i] == t[i - a];
    }
  }

  /** A string with no whitespace at either end is its own strip. */
  lemma StripUnchanged(s: string)
    requires s == [] || (!IsSpace(s[0]) && !IsSpace(s[|s| - 1]))
    ensures Strip(s) == s
  {
  }

  /** A string strips to nothing exactly when it is blank. */
  lemma StripEmptyIffBlank(s: string)
    ensures Strip(s) == [] <==> IsBlank(s)
  {
    var a, b := StripIsSlice(s);
    if Strip(s) != [] {
      assert s[a] == Strip(s)[0];
    }
  }

  /** Stripping twice changes nothing. */
  lemma StripIdempotent(s: string)
    ensures Strip(Strip(s)) == Strip(s)
  {
    var t := Strip(s);
    var _, _ := StripIsSlice(s);
    if t != [] {
      assert TrimStart(t) == t;
      assert TrimEnd(t) == t;
    }
  }

  // ---------------------------------------------------------------------
  // Case mapping: Python's lower() on ASCII and Latin-1, upper() on ASCII
  // ---------------------------------------------------------------------

  function LowerChar(c: char): char
  {
    if 'A' <= c <= 'Z' then (c as int + 32) as char
    else if ('\U{00C0}' <= c <= '\U{00DE}') && c != '\U{00D7}' then (c as int + 32) as char
    else c
  }

  /** Python's `s.lower()`: upper-case letters are mapped, every other character is kept, and nothing upper-case is left. */
  function Lower(s: string): (r: string)
    ensures |r| == |s|
    ensures forall i :: 0 <= i < |r| ==> LowerChar(r[i]) == r[i]
    ensures forall i :: 0 <= i < |s| && !('A' <= s[i] <= 'Z') && !('\U{00C0}' <= s[i] <= '\U{00DE}') ==> r[i] == s[i]
  {
    seq(|s|, i requires 0 <= i < |s| => LowerChar(s[i]))
  }

  function UpperChar(c: char): char
  {
    if 'a' <= c <= 'z' then (c as int - 32) as char else c
  }

  function Upper(s: string): (r: string)
    ensures |r| == |s|
  {
    seq(|s|, i requires 0 <= i < |s| => UpperChar(s[i]))
  }

  lemma LowerCharIdempotent(c: char)
    ensures LowerChar(LowerChar(c)) == LowerChar(c)
  {
  }

  /**
   * Python's `c.isalnum()` on Latin-1 (U+0000..U+00FF): ASCII letters and
   * digits, the Latin-1 letters, and the superscript digits and vulgar
   * fractions that Python counts as numeric.
   */
  predicate IsAlnum(c: char)
  {
    || ('a' <= c <= 'z') || ('A' <= c <= 'Z') || ('0' <= c <= '9')
    || c == '\U{00AA}' || c == '\U{00B5}' || c == '\U{00BA}'
    || c == '\U{00B2}' || c == '\U{00B3}' || c == '\U{00B9}'
    || ('\U{00BC}' <= c <= '\U{00BE}')
    || ('\U{00C0}' <= c <= '\U{00FF}' && c != '\U{00D7}' && c != '\U{00F7}')
  }

  // ---------------------------------------------------------------------
  // Digits, substrings, joining, decimal rendering
  // ---------------------------------------------------------------------

  predicate IsDigit(c: char) { '0' <= c <= '9' }

  predicate AllDigits(s: string) { forall i :: 0 <= i < |s| ==> IsDigit(s[i]) }

  /** Python's `sub in s`. */
  predicate Contains(s: string, sub: string)
    decreases |s|
  {
    |sub| <= |s| && (s[..|sub|] == sub || Contains(s[1..], sub))
  }

  /** An occurrence at position i makes `sub in s` true. */
  lemma {:induction false} ContainsFrom(s: string, sub: string, i: nat)
    requires i + |sub| <= |s| && s[i..i + |sub|] == sub
    ensures Contains(s, sub)
    decreases i
  {
    if i > 0 {
      assert s[1..][i - 1..i - 1 + |sub|] == s[i..i + |sub|];
      ContainsFrom(s[1..], sub, i - 1);
    }
  }

  /** `sub in s` has a position where sub occurs. */
  lemma {:induction false} ContainsAt(s: string, sub: string) returns (i: nat)
    requires Contains(s, sub)
    ensures i + |sub| <= |s| && s[i..i + |sub|] == sub
    decreases |s|
  {
    if s[..|sub|] == sub {
      i := 0;
    } else {
      var j := ContainsAt(s[1..], sub);
      assert s[1..][j..j + |sub|] == s[j + 1..j + 1 + |sub|];
      i := j + 1;
    }
  }

  /** Every character of a contained string occurs in the containing one. */
  lemma ContainedChars(s: string, sub: string)
    requires Contains(s, sub)
    ensures forall c :: c in sub ==> c in s
  {
    var i := ContainsAt(s, sub);
    forall c | c in sub ensures c in s {
      var k :| 0 <= k < |sub| && sub[k] == c;
      assert s[i..i + |sub|][k] == s[i + k];
    }
  }

  /** A character of sub missing from s rules out `sub in s`. */
  lemma AbsentCharBlocks(s: string, sub: string, c: char)
    requires c in sub && c !in s
    ensures !Contains(s, sub)
  {
    if Contains(s, sub) {
      ContainedChars(s, sub);
    }
  }

  /** `in` is transitive: a string holding t holds every part of t. */
  lemma ContainsTrans(s: string, t: string, u: string)
    requires Contains(s, t) && Contains(t, u)
    ensures Contains(s, u)
  {
    var i := ContainsAt(s, t);
    var j := ContainsAt(t, u);
    var w := s[i + j..i + j + |u|];
    forall k | 0 <= k < |u| ensures w[k] == u[k] {
      assert w[k] == s[i..i + |t|][j + k];
      assert u[k] == t[j..j + |u|][k];
    }
    assert w == u;
    ContainsFrom(s, u, i + j);
  }

  predicate StartsWith(s: string, prefix: string)
  {
    |prefix| <= |s| && s[..|prefix|] == prefix
  }

  /** Python's `sep.join(parts)`. */
  function Join(sep: string, parts: seq<string>): string
  {
    if parts == [] then ""
    else if |parts| == 1 then parts[0]
    else parts[0] + sep + Join(sep, parts[1..])
  }

  function DigitChar(d: nat): char
    requires d < 10
  {
    ('0' as int + d) as char
  }

  /** Python's `str(n)` for a natural number. */
  function NatToString(n: nat): (r: string)
    ensures |r| >= 1 && AllDigits(r)
  {
    if n < 10 then [DigitChar(n)] else NatToString(n / 10) + [DigitChar(n % 10)]
  }

  /** Python's `str(n)` for any integer. */
  function IntToString(n: int): (r: string)
    ensures n >= 0 ==> r == NatToString(n)
    ensures n < 0 ==> r == "-" + NatToString(-n)
  {
    if n >= 0 then NatToString(n) else "-" + NatToString(-n)
  }

  function Reverse<T>(s: seq<T>): (r: seq<T>)
    ensures |r| == |s|
    ensures forall k :: 0 <= k < |s| ==> r[k] == s[|s| - 1 - k]
  {
    if s == [] then [] else Reverse(s[1..]) + [s[0]]
  }

  /** `[x for x in s if keep(x)]` */
  function Filter<T(!new)>(s: seq<T>, keep: T -> bool): (r: seq<T>)
    ensures |r| <= |s|
    ensures forall x :: x in r <==> x in s && keep(x)
  {
    if s == [] then []
    else (if keep(s[0]) then [s[0]] else []) + Filter(s[1..], keep)
  }

  /** Nothing passes the filter when no element is kept. */
  lemma {:induction false} FilterNone<T(!new)>(s: seq<T>, keep: T -> bool)
    requires forall i :: 0 <= i < |s| ==> !keep(s[i])
    ensures Filter(s, keep) == []
  {
    if s != [] {
      FilterNone(s[1..], keep);
    }
  }

  /** Everything passes the filter when every element is kept. */
  lemma {:induction false} FilterAll<T(!new)>(s: seq<T>, keep: T -> bool)
    requires forall i :: 0 <= i < |s| ==> keep(s[i])
    ensures Filter(s, keep) == s
  {
    if s != [] {
      FilterAll(s[1..], keep);
      assert [s[0]] + s[1..] == s;
    }
  }

  /** Filtering keeps the relative order: an ordering along `s` by a key survives. */
  predicate SortedBy<T>(s: seq<T>, key: T -> int)
  {
    forall i, j :: 0 <= i < j < |s| ==> key(s[i]) <= key(s[j])
  }

  lemma {:induction false} FilterKeepsOrder<T(!new)>(s: seq<T>, keep: T -> bool, key: T -> int)
    requires SortedBy(s, key)
    ensures SortedBy(Filter(s, keep), key)
  {
    if s != [] {
      var tail := s[1..];
      SortedTail(s, key);
      FilterKeepsOrder(tail, keep, key);
      var rest := Filter(tail, keep);
      HeadBelowKept(s, keep, key);
      if keep(s[0]) {
        assert Filter(s, keep) == [s[0]] + rest;
        SortedCons(s[0], rest, key);
      } else {
        assert Filter(s, keep) == rest;
      }
    }
  }

  lemma SortedTail<T>(s: seq<T>, key: T -> int)
    requires s != [] && SortedBy(s, key)
    ensures SortedBy(s[1..], key)
  {
    var tail := s[1..];
    forall i, j | 0 <= i < j < |tail| ensures key(tail[i]) <= key(tail[j]) {
      assert tail[i] == s[i + 1] && tail[j] == s[j + 1];
    }
  }

  lemma HeadBelowKept<T(!new)>(s: seq<T>, keep: T -> bool, key: T -> int)
    requires s != [] && SortedBy(s, key)
    ensures forall x :: x in Filter(s[1..], keep) ==> key(s[0]) <= key(x)
  {
    forall x | x in Filter(s[1..], keep)
      ensures key(s[0]) <= key(x)
    {
      var k :| 0 <= k < |s[1..]| && s[1..][k] == x;
      assert s[k + 1] == x;
    }
  }

  lemma SortedCons<T>(x: T, rest: seq<T>, key: T -> int)
    requires SortedBy(rest, key)
    requires forall y :: y in rest ==> key(x) <= key(y)
    ensures SortedBy([x] + rest, key)
  {
    var r := [x] + rest;
    forall i, j | 0 <= i < j < |r|
      ensures key(r[i]) <= key(r[j])
    {
      assert r[j] == rest[j - 1];
      if i > 0 {
        assert r[i] == rest[i - 1];
      }
    }
  }

  // ---------------------------------------------------------------------
  // psycopg2 placeholders: occurrences of "%s" in generated SQL text
  // ---------------------------------------------------------------------

  function Placeholders(s: string): nat
  {
    if |s| < 2 then 0
    else if s[0] == '%' && s[1] == 's' then 1 + Placeholders(s[2..])
    else Placeholders(s[1..])
  }

  /** Counting is additive across a concatenation unless the left part ends in a lone '%'. */
  lemma {:induction false} PlaceholdersConcat(a: string, b: string)
    requires a == [] || a[|a| - 1] != '%'
    ensures Placeholders(a + b) == Placeholders(a) + Placeholders(b)
  {
    if a == [] {
      assert a + b == b;
    } else if |a| == 1 {
      assert (a + b)[1..] == b;
    } else if a[0] == '%' && a[1] == 's' {
      assert (a + b)[2..] == a[2..] + b;
      PlaceholdersConcat(a[2..], b);
    } else {
      assert (a + b)[1..] == a[1..] + b;
      PlaceholdersConcat(a[1..], b);
    }
  }

  /** Strings that contain no '%' at all hold no placeholder. */
  lemma {:induction false} NoPercentNoPlaceholders(s: string)
    requires forall i :: 0 <= i < |s| ==> s[i] != '%'
    ensures Placeholders(s) == 0
  {
    if |s| >= 2 {
      NoPercentNoPlaceholders(s[1..]);
    }
  }

  /** No '%' anywhere in s. */
  predicate NoPercent(s: string)
  {
    '%' !in s
  }

  /** Text with no '%' around a part adds no placeholder. */
  lemma PlaceholdersAround(a: string, m: string, b: string)
    requires NoPercent(a) && NoPercent(b)
    requires m == [] || m[|m| - 1] != '%'
    ensures Placeholders(a + m + b) == Placeholders(m)
  {
    NoPercentNoPlaceholders(a);
    NoPercentNoPlaceholders(b);
    PlaceholdersConcat(a, m);
    PlaceholdersConcat(a + m, b);
  }

  /** The number of "%s" in `sep.join(parts)` is the sum over the parts, when separators hold no '%'. */
  function PlaceholdersIn(parts: seq<string>): nat
  {
    if parts == [] then 0 else Placeholders(parts[0]) + PlaceholdersIn(parts[1..])
  }

  lemma {:induction false} PlaceholdersJoin(sep: string, parts: seq<string>)
    requires forall i :: 0 <= i < |sep| ==> sep[i] != '%'
    requires forall k :: 0 <= k < |parts| ==> parts[k] == [] || parts[k][|parts[k]| - 1] != '%'
    ensures Placeholders(Join(sep, parts)) == PlaceholdersIn(parts)
  {
    if |parts| == 0 {
    } else if |parts| == 1 {
      assert PlaceholdersIn(parts[1..]) == 0;
    } else {
      var rest := Join(sep, parts[1..]);
      PlaceholdersJoin(sep, parts[1..]);
      NoPercentNoPlaceholders(sep);
      assert parts[0] + sep + rest == parts[0] + (sep + rest);
      PlaceholdersConcat(parts[0], sep + rest);
      PlaceholdersConcat(sep, rest);
    }
  }

  // ---------------------------------------------------------------------
  // Pagination: total_pages = (total + page_size - 1) // page_size,
  //             offset = (page - 1) * page_size
  // ---------------------------------------------------------------------

  /** Python's floor division `a // b`. */
  function FloorDiv(a: int, b: int): int
    requires b != 0
  {
    if b > 0 then a / b else (-a) / (-b)
  }

  datatype Page = Page(totalPages: int, offset: int)

  /**
   * The page arithmetic of the list endpoints; a page size of 0 raises
   * ZeroDivisionError in the source, modelled as None. For a positive page
   * size the number of pages is the ceiling of total / page_size.
   */
  function Paginate(total: nat, page: int, pageSize: int): (r: Option<Page>)
    ensures r.None? <==> pageSize == 0
    ensures r.Some? ==> r.value.offset == (page - 1) * pageSize
    ensures pageSize > 0 ==> r.Some? && r.value.totalPages >= 0
    ensures pageSize > 0 ==> (r.value.totalPages == 0 <==> total == 0)
    ensures pageSize > 0 ==> r.value.totalPages * pageSize >= total
    ensures pageSize > 0 && total > 0 ==> (r.value.totalPages - 1) * pageSize < total
  {
    if pageSize == 0 then None
    else
      var n := total + pageSize - 1;
      var tp := FloorDiv(n, pageSize);
      assert pageSize > 0 ==> n == tp * pageSize + n % pageSize;
      Some(Page(tp, (page - 1) * pageSize))
  }
}
