/**
 * The sessions-history comparator and the stable sort that `Array.prototype.sort`
 * performs with it.
 */
module SessionsSort {
  import opened Text
  import opened Therapy
  import opened Sessions

  datatype SortField = Date | ChildName | TherapyKind | Performance
  datatype SortDirection = Asc | Desc
  datatype SortState = SortState(field: SortField, direction: SortDirection)

  /** The page opens sorted by date, newest first. */
  const InitialSort := SortState(Date, Desc)

  function Sign(x: int): int {
    if x < 0 then -1 else if x > 0 then 1 else 0
  }

  // ------------------------------------------------------------ date key

  /**
   * Compares the (date, time) pairs: by date, and by time on equal dates.
   * This stands for `new Date(`${date}T${time}`).getTime()` subtraction; see
   * `DateOrderIsChronological`.
   */
  function DateKeyCompare(a: Session, b: Session): int {
    var c := LexCompare(a.date, b.date);
    if c != 0 then c else LexCompare(a.time, b.time)
  }

  predicate IsDigit(c: char) {
    '0' <= c <= '9'
  }

  /** `a` and `b` have digits at the same positions and the same separators elsewhere. */
  predicate SameShape(a: string, b: string) {
    && |a| == |b|
    && forall i :: 0 <= i < |a| ==> (IsDigit(a[i]) <==> IsDigit(b[i])) && (!IsDigit(a[i]) ==> a[i] == b[i])
  }

  predicate WellFormedDate(d: string) {
    SameShape(d, "0000-00-00")
  }

  predicate WellFormedTime(t: string) {
    SameShape(t, "00:00")
  }

  function Pow10(n: nat): nat {
    if n == 0 then 1 else 10 * Pow10(n - 1)
  }

  function DigitCount(s: string): nat {
    if |s| == 0 then 0 else (if IsDigit(s[0]) then 1 else 0) + DigitCount(s[1..])
  }

  /** The digits of `s`, separators skipped, read as one decimal number. */
  function DigitValue(s: string): (r: nat)
    ensures r < Pow10(DigitCount(s))
  {
    if |s| == 0 then 0
    else if IsDigit(s[0]) then
      var d := s[0] as int - '0' as int;
      var p := Pow10(DigitCount(s[1..]));
      assert d * p + DigitValue(s[1..]) < (d + 1) * p <= 10 * p;
      d * p + DigitValue(s[1..])
    else DigitValue(s[1..])
  }

  /** The calendar instant YYYYMMDDHHMM as one number; it orders like the epoch time. */
  function Stamp(s: Session): nat {
    DigitValue(s.date + s.time)
  }

  lemma SameShapeTail(a: string, b: string)
    requires SameShape(a, b) && |a| > 0
    ensures SameShape(a[1..], b[1..])
  {
    forall i | 0 <= i < |a| - 1
      ensures (IsDigit(a[1..][i]) <==> IsDigit(b[1..][i])) && (!IsDigit(a[1..][i]) ==> a[1..][i] == b[1..][i])
    {
      assert a[1..][i] == a[i + 1] && b[1..][i] == b[i + 1];
    }
  }

  lemma {:induction false} SameShapeDigitCount(a: string, b: string)
    requires SameShape(a, b)
    ensures DigitCount(a) == DigitCount(b)
    decreases |a|
  {
    if |a| > 0 {
      SameShapeTail(a, b);
      SameShapeDigitCount(a[1..], b[1..]);
    }
  }

  /** A smaller leading digit outweighs anything the following digits add. */
  lemma LeadingDigitDecides(da: nat, db: nat, p: nat, ra: nat, rb: nat)
    requires da < db && ra < p
    ensures da * p + ra < db * p + rb
  {
    assert (da + 1) * p <= db * p;
  }

  /**
   * On strings of the same shape, code-point order is numeric order of the
   * digits: the reason a fixed-width date or time compares correctly as text.
   */
  lemma {:induction false} ShapeOrderIsNumeric(a: string, b: string)
    requires SameShape(a, b)
    ensures LexCompare(a, b) == Sign(DigitValue(a) - DigitValue(b))
    decreases |a|
  {
    if |a| > 0 {
      SameShapeTail(a, b);
      if a[0] == b[0] {
        ShapeOrderIsNumeric(a[1..], b[1..]);
        if IsDigit(a[0]) {
          SameShapeDigitCount(a[1..], b[1..]);
        }
      } else {
        assert IsDigit(a[0]) && IsDigit(b[0]);
        SameShapeDigitCount(a[1..], b[1..]);
        var p := Pow10(DigitCount(a[1..]));
        var da := a[0] as int - '0' as int;
        var db := b[0] as int - '0' as int;
        assert DigitValue(a) == da * p + DigitValue(a[1..]);
        assert DigitValue(b) == db * p + DigitValue(b[1..]);
        if da < db {
          LeadingDigitDecides(da, db, p, DigitValue(a[1..]), DigitValue(b[1..]));
        } else {
          LeadingDigitDecides(db, da, p, DigitValue(b[1..]), DigitValue(a[1..]));
        }
      }
    }
  }

  /** Comparing concatenations of equal-length heads compares heads, then tails. */
  lemma {:induction false} LexCompareConcat(a1: string, a2: string, b1: string, b2: string)
    requires |a1| == |b1|
    ensures LexCompare(a1 + a2, b1 + b2)
         == (if LexCompare(a1, b1) != 0 then LexCompare(a1, b1) else LexCompare(a2, b2))
    decreases |a1|
  {
    if |a1| == 0 {
      assert a1 + a2 == a2 && b1 + b2 == b2;
    } else {
      assert (a1 + a2)[0] == a1[0] && (b1 + b2)[0] == b1[0];
      assert (a1 + a2)[1..] == a1[1..] + a2 && (b1 + b2)[1..] == b1[1..] + b2;
      LexCompareConcat(a1[1..], a2, b1[1..], b2);
    }
  }

  lemma SameShapeConcat(a1: string, a2: string, b1: string, b2: string)
    requires SameShape(a1, b1) && SameShape(a2, b2)
    ensures SameShape(a1 + a2, b1 + b2)
  {
    forall i | 0 <= i < |a1 + a2|
      ensures (IsDigit((a1 + a2)[i]) <==> IsDigit((b1 + b2)[i]))
           && (!IsDigit((a1 + a2)[i]) ==> (a1 + a2)[i] == (b1 + b2)[i])
    {
      if i >= |a1| {
        assert (a1 + a2)[i] == a2[i - |a1|] && (b1 + b2)[i] == b2[i - |b1|];
      }
    }
  }

  /**
   * For well-formed fixed-width dates and times the (date, time) comparison
   * has the sign of the difference of the instants, as the source's
   * `dateA - dateB` does.
   */
  lemma DateOrderIsChronological(a: Session, b: Session)
    requires WellFormedDate(a.date) && WellFormedTime(a.time)
    requires WellFormedDate(b.date) && WellFormedTime(b.time)
    ensures DateKeyCompare(a, b) == Sign(Stamp(a) - Stamp(b))
  {
    assert SameShape(a.date, b.date) && SameShape(a.time, b.time);
    SameShapeConcat(a.date, a.time, b.date, b.time);
    LexCompareConcat(a.date, a.time, b.date, b.time);
    ShapeOrderIsNumeric(a.date + a.time, b.date + b.time);
  }

  // ---------------------------------------------------------- comparator

  /** The ascending comparison for one sort key. */
  function KeyCompare(f: SortField, a: Session, b: Session): int {
    match f
    case Date => DateKeyCompare(a, b)
    case ChildName => LexCompare(a.childName, b.childName)
    case TherapyKind => LexCompare(Name(a.therapyType), Name(b.therapyType))
    case Performance => a.performance - b.performance
  }

  /** The comparator handed to `sort`: descending swaps the operands. */
  function Compare(st: SortState, a: Session, b: Session): int {
    if st.direction == Asc then KeyCompare(st.field, a, b) else KeyCompare(st.field, b, a)
  }

  lemma CompareAntisymmetric(st: SortState, a: Session, b: Session)
    ensures Compare(st, a, b) == -Compare(st, b, a)
  {
    LexAntisymmetric(a.date, b.date);
    LexAntisymmetric(a.time, b.time);
    LexAntisymmetric(a.childName, b.childName);
    LexAntisymmetric(Name(a.therapyType), Name(b.therapyType));
  }

  lemma DateKeyTransitive(a: Session, b: Session, c: Session)
    requires DateKeyCompare(a, b) <= 0 && DateKeyCompare(b, c) <= 0
    ensures DateKeyCompare(a, c) <= 0
  {
    LexTransitive(a.date, b.date, c.date);
    if LexCompare(a.date, b.date) == 0 && LexCompare(b.date, c.date) == 0 {
      LexTransitive(a.time, b.time, c.time);
    } else if LexCompare(a.date, c.date) == 0 {
      // a and c share a date, so b's date is squeezed between equal bounds
      LexAntisymmetric(a.date, b.date);
    }
  }

  lemma CompareTransitive(st: SortState, a: Session, b: Session, c: Session)
    requires Compare(st, a, b) <= 0 && Compare(st, b, c) <= 0
    ensures Compare(st, a, c) <= 0
  {
    match st.field
    case Date =>
      if st.direction == Asc { DateKeyTransitive(a, b, c); } else { DateKeyTransitive(c, b, a); }
    case ChildName =>
      if st.direction == Asc {
        LexTransitive(a.childName, b.childName, c.childName);
      } else {
        LexTransitive(c.childName, b.childName, a.childName);
      }
    case TherapyKind =>
      if st.direction == Asc {
        LexTransitive(Name(a.therapyType), Name(b.therapyType), Name(c.therapyType));
      } else {
        LexTransitive(Name(c.therapyType), Name(b.therapyType), Name(a.therapyType));
      }
    case Performance =>
  }

  // ---------------------------------------------------------------- sort

  /** Neighbours are in comparator order. */
  predicate Sorted(st: SortState, s: seq<Session>) {
    forall i :: 0 <= i < |s| - 1 ==> Compare(st, s[i], s[i + 1]) <= 0
  }

  /** Inserts `x` after every element it does not sort before, which keeps equal keys in arrival order. */
  function Insert(st: SortState, x: Session, s: seq<Session>): (r: seq<Session>)
    requires Sorted(st, s)
    ensures Sorted(st, r)
    ensures multiset(r) == multiset(s) + multiset{x}
    ensures |r| == |s| + 1
    ensures r[0] == x || (|s| > 0 && r[0] == s[0])
    decreases |s|
  {
    if |s| == 0 then [x]
    else if Compare(st, x, s[0]) < 0 then [x] + s
    else
      CompareAntisymmetric(st, x, s[0]);
      assert s == [s[0]] + s[1..];
      [s[0]] + Insert(st, x, s[1..])
  }

  /** `filtered.sort(comparator)`: a stable insertion sort. */
  function Sort(st: SortState, s: seq<Session>): (r: seq<Session>)
    ensures Sorted(st, r)
    ensures multiset(r) == multiset(s)
    ensures |r| == |s|
    decreases |s|
  {
    if |s| == 0 then []
    else
      assert s == s[..|s| - 1] + [s[|s| - 1]];
      Insert(st, s[|s| - 1], Sort(st, s[..|s| - 1]))
  }

  /** Neighbour order extends to every pair, since the comparator is transitive. */
  lemma {:induction false} SortedPairwise(st: SortState, s: seq<Session>)
    requires Sorted(st, s)
    ensures forall i, j :: 0 <= i < j < |s| ==> Compare(st, s[i], s[j]) <= 0
  {
    forall i, j | 0 <= i < j < |s|
      ensures Compare(st, s[i], s[j]) <= 0
    {
      var k := i + 1;
      while k < j
        invariant i < k <= j
        invariant Compare(st, s[i], s[k]) <= 0
      {
        CompareTransitive(st, s[i], s[k], s[k + 1]);
        k := k + 1;
      }
    }
  }

  /** Sorted by performance, neighbours rise (ascending) or fall (descending). */
  lemma SortedByPerformance(d: SortDirection, s: seq<Session>)
    requires Sorted(SortState(Performance, d), s)
    ensures d == Asc ==> forall i :: 0 <= i < |s| - 1 ==> s[i].performance <= s[i + 1].performance
    ensures d == Desc ==> forall i :: 0 <= i < |s| - 1 ==> s[i].performance >= s[i + 1].performance
  {
  }

  /** Sorted by child name, neighbours follow the string order (reversed when descending). */
  lemma SortedByName(d: SortDirection, s: seq<Session>)
    requires Sorted(SortState(ChildName, d), s)
    ensures d == Asc ==> forall i :: 0 <= i < |s| - 1 ==> LexCompare(s[i].childName, s[i + 1].childName) <= 0
    ensures d == Desc ==> forall i :: 0 <= i < |s| - 1 ==> LexCompare(s[i + 1].childName, s[i].childName) <= 0
  {
  }

  /** The default order: well-formed sessions come out newest first. */
  lemma {:induction false} DefaultOrderNewestFirst(s: seq<Session>)
    requires Sorted(InitialSort, s)
    requires forall x :: x in s ==> WellFormedDate(x.date) && WellFormedTime(x.time)
    ensures forall i :: 0 <= i < |s| - 1 ==> Stamp(s[i + 1]) <= Stamp(s[i])
  {
    forall i | 0 <= i < |s| - 1
      ensures Stamp(s[i + 1]) <= Stamp(s[i])
    {
      assert s[i] in s && s[i + 1] in s;
      DateOrderIsChronological(s[i + 1], s[i]);
    }
  }

  /** The therapy key orders the types alphabetically by their source strings. */
  lemma TherapyKeyOrder()
    ensures LexCompare(Name(Adl), Name(Behavior)) < 0
    ensures LexCompare(Name(Behavior), Name(Occupational)) < 0
    ensures LexCompare(Name(Occupational), Name(Sensory)) < 0
    ensures LexCompare(Name(Sensory), Name(Special)) < 0
    ensures LexCompare(Name(Special), Name(Speech)) < 0
  {
  }
}
