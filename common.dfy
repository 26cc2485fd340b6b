/** Values shared by every part of the expense tracker model: optional values,
    backend call outcomes, calendar dates, integer sums, filtering and the
    string helpers (trim, lower-case, substring) the components rely on. */
module Common {

  datatype Option<T> = None | Some(value: T) {
    function GetOr(default: T): T {
      match this
      case Some(v) => v
      case None => default
    }
  }

  /** An error as thrown by the application or by the backend SDK. */
  datatype Error = Error(code: string, message: string)

  datatype Result<T> = Ok(value: T) | Err(error: Error)

  /** The outcome of one awaited call into the hosted backend (document store
      or auth provider); the SDK itself is not part of the model. */
  datatype Outcome = Succeeded | Failed(error: Error)

  /** The value of a numeric input field: a number input yields either the
      empty string or a number, held here in integer cents. */
  datatype AmountField = Blank | Entered(cents: int)

  // ----- calendar dates -----

  /** A calendar date; `month` runs from 1 to 12. */
  datatype Date = Date(year: int, month: int, day: int)

  /** A point in time: a date and the milliseconds elapsed since its midnight. */
  datatype Instant = Instant(date: Date, millis: int)

  predicate IsLeapYear(y: int) {
    (y % 4 == 0 && y % 100 != 0) || y % 400 == 0
  }

  function DaysInMonth(y: int, m: int): (r: int)
    ensures 28 <= r <= 31
  {
    if m == 2 then (if IsLeapYear(y) then 29 else 28)
    else if m == 4 || m == 6 || m == 9 || m == 11 then 30
    else 31
  }

  predicate ValidDate(d: Date) {
    1 <= d.month <= 12 && 1 <= d.day <= DaysInMonth(d.year, d.month)
  }

  /** Position of a date on the time line: later dates get larger numbers. */
  function Ordinal(d: Date): int {
    (d.year * 12 + (d.month - 1)) * 31 + (d.day - 1)
  }

  /** Calendar order: year, then month, then day. */
  predicate CalendarBefore(a: Date, b: Date) {
    a.year < b.year
    || (a.year == b.year && a.month < b.month)
    || (a.year == b.year && a.month == b.month && a.day < b.day)
  }

  lemma OrdinalFollowsCalendar(a: Date, b: Date)
    requires ValidDate(a) && ValidDate(b)
    ensures CalendarBefore(a, b) <==> Ordinal(a) < Ordinal(b)
  {
    var ma := a.year * 12 + (a.month - 1);
    var mb := b.year * 12 + (b.month - 1);
    assert Ordinal(a) == ma * 31 + (a.day - 1);
    assert Ordinal(b) == mb * 31 + (b.day - 1);
    if ma < mb {
      assert Ordinal(a) < (ma + 1) * 31 <= mb * 31 <= Ordinal(b);
    } else if mb < ma {
      assert Ordinal(b) < (mb + 1) * 31 <= ma * 31 <= Ordinal(a);
    }
  }

  predicate IsLastDayOfMonth(d: Date) {
    d.day == DaysInMonth(d.year, d.month)
  }

  /** The last millisecond of the year of `d` (date-fns endOfYear). */
  function EndOfYear(d: Date): Instant {
    Instant(Date(d.year, 12, 31), 86_399_999)
  }

  predicate SameYearMonth(a: Date, b: Date) {
    a.year == b.year && a.month == b.month
  }

  // ----- sums and filters -----

  function Sum(xs: seq<int>): int {
    if xs == [] then 0 else xs[0] + Sum(xs[1..])
  }

  lemma {:induction false} SumAppend(a: seq<int>, b: seq<int>)
    ensures Sum(a + b) == Sum(a) + Sum(b)
  {
    if a == [] {
      assert a + b == b;
    } else {
      assert (a + b)[1..] == a[1..] + b;
      SumAppend(a[1..], b);
    }
  }

  /** The elements of `s` that satisfy `p`, in their original order
      (JavaScript's Array.prototype.filter). */
  function Filter<T>(p: T -> bool, s: seq<T>): (r: seq<T>)
    ensures |r| <= |s|
    ensures forall x :: x in r ==> x in s && p(x)
    ensures forall i :: 0 <= i < |s| && p(s[i]) ==> s[i] in r
  {
    if s == [] then [] else (if p(s[0]) then [s[0]] else []) + Filter(p, s[1..])
  }

  lemma {:induction false} FilterAppend<T>(p: T -> bool, a: seq<T>, b: seq<T>)
    ensures Filter(p, a + b) == Filter(p, a) + Filter(p, b)
  {
    if a == [] {
      assert a + b == b;
    } else {
      assert (a + b)[1..] == a[1..] + b;
      FilterAppend(p, a[1..], b);
    }
  }

  /** Filtering keeps every element that satisfies the predicate, as often as it
      occurs, and drops every other element. */
  lemma {:induction false} FilterCounts<T>(p: T -> bool, s: seq<T>, x: T)
    ensures multiset(Filter(p, s))[x] == if p(x) then multiset(s)[x] else 0
  {
    if s != [] {
      FilterCounts(p, s[1..], x);
      assert s == [s[0]] + s[1..];
    }
  }

  /** How many elements of `s` are equal to `x`. */
  function Count<T(==)>(s: seq<T>, x: T): nat {
    multiset(s)[x]
  }

  // ----- colour cycling -----

  /** `palette[index % palette.length]`: the colour of the index-th slice of a chart. */
  function Cycled<T>(palette: seq<T>, index: nat): T
    requires palette != []
  {
    palette[index % |palette|]
  }

  /** With a palette of six distinct colours (both charts have six), the
      colours repeat every six slices and any six consecutive slices all
      differ. */
  lemma CycledColours<T>(palette: seq<T>, a: nat, b: nat)
    requires |palette| == 6
    requires forall i, j :: 0 <= i < j < |palette| ==> palette[i] != palette[j]
    ensures Cycled(palette, a + 6) == Cycled(palette, a)
    ensures a < b < a + 6 ==> Cycled(palette, a) != Cycled(palette, b)
  {
    if a < b < a + 6 {
      assert a % 6 != b % 6;
      if a % 6 < b % 6 {
        assert palette[a % 6] != palette[b % 6];
      } else {
        assert palette[b % 6] != palette[a % 6];
      }
    }
  }

  // ----- strings -----

  /** The characters JavaScript's String.prototype.trim removes: WhiteSpace
      and LineTerminator of ECMA-262. */
  predicate IsSpace(c: char) {
    c == ' ' || c == '\t' || c == '\n' || c == '\r' || c == '\U{000B}' || c == '\U{000C}'
    || c == '\U{00A0}' || c == '\U{1680}' || ('\U{2000}' <= c <= '\U{200A}')
    || c == '\U{2028}' || c == '\U{2029}' || c == '\U{202F}' || c == '\U{205F}'
    || c == '\U{3000}' || c == '\U{FEFF}'
  }

  /** String.prototype.trimStart. Its shape is stated by TrimStartShape, kept
      apart so that callers which only pass trimmed strings around do not pay
      for it. */
  function TrimStart(s: string): string {
    if s != [] && IsSpace(s[0]) then TrimStart(s[1..]) else s
  }

  lemma {:induction false} TrimStartShape(s: string)
    ensures var r := TrimStart(s);
            |r| <= |s| && r == s[|s| - |r|..]
            && (r != [] ==> !IsSpace(r[0]))
            && (forall i :: 0 <= i < |s| - |r| ==> IsSpace(s[i]))
  {
    if s != [] && IsSpace(s[0]) {
      var t := s[1..];
      TrimStartShape(t);
      var r := TrimStart(t);
      assert TrimStart(s) == r;
      assert t[|t| - |r|..] == s[|s| - |r|..];
      forall i | 0 <= i < |s| - |r|
        ensures IsSpace(s[i])
      {
        if i > 0 {
          assert s[i] == t[i - 1];
        }
      }
    }
  }

  /** String.prototype.trimEnd. */
  function TrimEnd(s: string): string {
    if s != [] && IsSpace(s[|s| - 1]) then TrimEnd(s[..|s| - 1]) else s
  }

  lemma {:induction false} TrimEndShape(s: string)
    ensures var r := TrimEnd(s);
            |r| <= |s| && r == s[..|r|]
            && (r != [] ==> !IsSpace(r[|r| - 1]))
            && (forall i :: |r| <= i < |s| ==> IsSpace(s[i]))
  {
    if s != [] && IsSpace(s[|s| - 1]) {
      TrimEndShape(s[..|s| - 1]);
    }
  }

  /** `r` is the slice of `s` starting at `a` with only white space before
      and after it in `s`. */
  predicate TrimmedFrom(s: string, r: string, a: int) {
    0 <= a && a + |r| <= |s| && r == s[a..a + |r|]
    && (forall i :: 0 <= i < a ==> IsSpace(s[i]))
    && (forall i :: a + |r| <= i < |s| ==> IsSpace(s[i]))
  }

  /** String.prototype.trim: never longer than its input, and a non-empty
      result neither begins nor ends with white space. That it is the input
      with its outer white space cut off is TrimIsSlice, and that no other
      string fits that description is TrimUnique; both are kept apart so that
      callers which only pass trimmed strings around do not pay for them. */
  function Trim(s: string): (r: string)
    ensures |r| <= |s|
    ensures r != "" ==> !IsSpace(r[0]) && !IsSpace(r[|r| - 1])
  {
    var t := TrimStart(s);
    TrimStartShape(s);
    TrimEndShape(t);
    var r := TrimEnd(t);
    assert r != "" ==> r[0] == t[0];
    r
  }

  /** The trimmed string is the slice of the input that starts after its
      leading white space, with only white space after it. */
  lemma TrimIsSlice(s: string)
    ensures TrimmedFrom(s, Trim(s), |s| - |TrimStart(s)|)
  {
    var t := TrimStart(s);
    TrimStartShape(s);
    TrimEndShape(t);
    var r := Trim(s);
    var a := |s| - |t|;
    assert t == s[a..] && r == t[..|r|];
    assert r == s[a..a + |r|];
    forall i | a + |r| <= i < |s|
      ensures IsSpace(s[i])
    {
      assert s[i] == t[i - a];
    }
  }

  /** A slice of the input with only white space around it and none at its
      own ends is the trimmed string: trim is characterised by that. */
  lemma TrimUnique(s: string, r: string, a: int)
    requires TrimmedFrom(s, r, a)
    requires r != "" ==> !IsSpace(r[0]) && !IsSpace(r[|r| - 1])
    ensures r == Trim(s)
  {
    var b := |s| - |TrimStart(s)|;
    var q := Trim(s);
    TrimIsSlice(s);
    TrimEmptyIffAllSpace(s);
    if r == "" {
      forall i | 0 <= i < |s|
        ensures IsSpace(s[i])
      {
        if a <= i {
          assert a + |r| <= i;
        }
      }
    } else {
      assert s[a] == r[0] && s[a + |r| - 1] == r[|r| - 1];
      assert !IsSpace(s[a]);
      assert q != "";
      assert s[b] == q[0] && s[b + |q| - 1] == q[|q| - 1];
      assert !IsSpace(s[b]);
      assert a == b;
      assert !IsSpace(s[a + |r| - 1]) && !IsSpace(s[b + |q| - 1]);
      assert |r| == |q|;
    }
  }

  /** A string is blank (`!s.trim()` in the source) iff it is all white space. */
  lemma TrimEmptyIffAllSpace(s: string)
    ensures Trim(s) == "" <==> forall i :: 0 <= i < |s| ==> IsSpace(s[i])
  {
    var t := TrimStart(s);
    TrimStartShape(s);
    TrimEndShape(t);
    if Trim(s) == "" {
      assert t == [];
    } else {
      var r := Trim(s);
      assert r[0] == t[0];
      assert t[0] == s[|s| - |t|];
    }
  }

  /** ASCII lower-casing (String.prototype.toLowerCase on A..Z). */
  function LowerChar(c: char): char {
    if 'A' <= c <= 'Z' then (c as int + 32) as char else c
  }

  function ToLower(s: string): (r: string)
    ensures |r| == |s|
    ensures forall i :: 0 <= i < |s| ==> r[i] == LowerChar(s[i])
  {
    if s == [] then [] else [LowerChar(s[0])] + ToLower(s[1..])
  }

  /** `sub` occurs in `s` (String.prototype.includes). */
  predicate Contains(s: string, sub: string) {
    sub <= s || (s != [] && Contains(s[1..], sub))
  }
}
