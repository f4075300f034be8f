/** A validity pattern: one bit per calendar day counted from the pattern's
    beginning date (source/type/type.cpp), plus the bitset algebra the
    disruption engine and the calendar code combine patterns with
    (source/type/data.h). A bitset is modelled as the set of the day indexes
    whose bit is 1; dates are day numbers, so the difference of two dates is
    a subtraction. */
module ValidityPattern {

  /** Largest day index `is_valid` accepts. */
  const LastDay: int := 366

  /** The days whose bit is set. */
  type Days = set<int>

  datatype Pattern = Pattern(beginning: int, days: Days)

  /** `ValidityPattern::is_valid`: a day index is usable when it is neither
      before the beginning date nor past the last day. */
  predicate IsValid(day: int) {
    if day < 0 then false
    else if day > LastDay then false
    else true
  }

  lemma IsValidRange(day: int)
    ensures !IsValid(day) <==> day < 0 || day > 366
  {
  }

  /** Every set bit lies in the range `is_valid` accepts. */
  ghost predicate InRange(d: Days) {
    forall x :: x in d ==> IsValid(x)
  }

  /** `slide`: the number of days from the beginning date to `date`. */
  function Slide(p: Pattern, date: int): (r: int)
    ensures date == p.beginning + r
  {
    date - p.beginning
  }

  /** `add(int)`: set the bit of a valid day; an out-of-range day is ignored. */
  function Add(p: Pattern, day: int): (r: Pattern)
    ensures r.beginning == p.beginning
    ensures IsValid(day) ==> Check(r, day)
    ensures !IsValid(day) ==> r == p
    ensures forall e :: e != day ==> (e in r.days <==> e in p.days)
  {
    if IsValid(day) then p.(days := p.days + {day}) else p
  }

  /** `remove(int)`: clear the bit of a valid day; an out-of-range day is ignored. */
  function Remove(p: Pattern, day: int): (r: Pattern)
    ensures r.beginning == p.beginning
    ensures !Check(r, day)
    ensures !IsValid(day) ==> r == p
    ensures forall e :: e != day ==> (e in r.days <==> e in p.days)
  {
    if IsValid(day) then p.(days := p.days - {day}) else p
  }

  /** `check(int)`: whether the bit of a day is set; false for any day outside
      the valid range. */
  function Check(p: Pattern, day: int): (r: bool)
    ensures r ==> IsValid(day)
    ensures IsValid(day) ==> (r <==> day in p.days)
  {
    if IsValid(day) then day in p.days else false
  }

  /** `add(date)`. */
  function AddDate(p: Pattern, date: int): Pattern {
    Add(p, Slide(p, date))
  }

  /** `remove(date)`. */
  function RemoveDate(p: Pattern, date: int): Pattern {
    Remove(p, Slide(p, date))
  }

  /** `check(date)`. */
  function CheckDate(p: Pattern, date: int): bool {
    Check(p, Slide(p, date))
  }

  /** The date overloads act on the day `date - beginning`: adding a date in
      range makes it checked, removing it makes it unchecked, and a date
      outside the range changes nothing and is never checked. */
  lemma DateOverloads(p: Pattern, date: int)
    ensures var d := date - p.beginning;
      && (IsValid(d) ==> CheckDate(AddDate(p, date), date))
      && !CheckDate(RemoveDate(p, date), date)
      && (!IsValid(d) ==> AddDate(p, date) == p && RemoveDate(p, date) == p && !CheckDate(p, date))
      && CheckDate(p, date) == Check(p, d)
  {
  }

  /** Adding then removing (or removing then adding) a day only touches that day. */
  lemma AddRemoveLocal(p: Pattern, day: int, other: int)
    requires other != day
    ensures Check(Add(p, day), other) == Check(p, other)
    ensures Check(Remove(p, day), other) == Check(p, other)
  {
  }

  /** `str()`: `std::bitset::to_string` over `width` bits, highest day first,
      so the last character is day 0. */
  function Str(d: Days, width: nat): (s: string)
    ensures |s| == width
    ensures forall i :: 0 <= i < width ==> (s[i] == '1' <==> width - 1 - i in d)
    ensures forall i :: 0 <= i < width ==> s[i] == '0' || s[i] == '1'
  {
    if width == 0 then ""
    else [if width - 1 in d then '1' else '0'] + Str(d, width - 1)
  }

  /** The test suite compares the rendering's last characters with a literal
      such as "011000": the k-th character from the right is day k. */
  lemma StrSuffix(d: Days, width: nat, k: nat)
    requires k < width
    ensures Str(d, width)[width - 1 - k] == (if k in d then '1' else '0')
  {
  }

  // ---- bitset algebra --------------------------------------------------

  /** `a & b` */
  function And(a: Days, b: Days): (r: Days)
    ensures forall x :: x in r <==> x in a && x in b
  {
    a * b
  }

  /** `a | b` */
  function Or(a: Days, b: Days): (r: Days)
    ensures forall x :: x in r <==> x in a || x in b
  {
    a + b
  }

  /** `a ^ b` */
  function Xor(a: Days, b: Days): (r: Days)
    ensures forall x :: x in r <==> (x in a) != (x in b)
  {
    (a - b) + (b - a)
  }

  /** `none()` */
  predicate NoneSet(a: Days) {
    a == {}
  }

  /** `a >> n` on a `std::bitset`: the bit of day `x + n` moves to day `x`,
      the lowest `n` days fall off and zeroes come in at the top. */
  function ShiftRight(a: Days, n: nat): (r: Days)
    ensures forall x :: x in r <==> x >= 0 && x + n in a
  {
    var r := set x | x in a && x >= n :: x - n;
    assert forall x :: x >= 0 && x + n in a ==> x in r by {
      forall x | x >= 0 && x + n in a ensures x in r {
        assert (x + n) in a && (x + n) >= n;
      }
    }
    r
  }

  lemma ShiftRightZero(a: Days)
    requires InRange(a)
    ensures ShiftRight(a, 0) == a
  {
  }

  lemma ShiftRightInRange(a: Days, n: nat)
    requires InRange(a)
    ensures InRange(ShiftRight(a, n))
  {
  }

  /** Shifting distributes over `|` and `&`, which the stop-point closure
      relies on when it shifts a union of per-period patterns. */
  lemma ShiftRightDistributes(a: Days, b: Days, n: nat)
    ensures ShiftRight(Or(a, b), n) == Or(ShiftRight(a, n), ShiftRight(b, n))
    ensures ShiftRight(And(a, b), n) == And(ShiftRight(a, n), ShiftRight(b, n))
  {
  }

  // ---- data.h -------------------------------------------------------------

  /** `get_difference(calendar, vj)`: `(calendar ^ vj) & calendar`, the days
      the calendar is active and the vehicle journey is not. */
  function GetDifference(calendar: Days, vj: Days): (r: Days)
    ensures r <= calendar
    ensures r !! vj
    ensures r == calendar - vj
  {
    And(Xor(calendar, vj), calendar)
  }

  lemma GetDifferenceLimits(calendar: Days, vj: Days)
    ensures GetDifference(calendar, calendar) == {}
    ensures GetDifference(calendar, {}) == calendar
    ensures calendar <= vj ==> GetDifference(calendar, vj) == {}
  {
  }
}
