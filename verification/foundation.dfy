/**
 * The small part of Foundation and Bolts that the app's logic depends on:
 * optional values, the outcome of a background task, dates and the
 * calendar's whole-day difference, the user-defaults store, Swift's
 * decimal rendering of an `Int`, and the string operations used by the
 * search filter and the title sort (`rangeOfString`, `" ".join`, `<`).
 */
module Foundation {

  datatype Option<T> = None | Some(value: T)

  /** The outcome of a Bolts task: it completed with a result (nil when the
      result is `None`), or it faulted with an error. */
  datatype Task<T> = Done(result: Option<T>) | Faulted(error: string)

  // ---------------------------------------------------------------------
  // Dates and the calendar
  // ---------------------------------------------------------------------

  /** A point in time, in seconds since the reference date. */
  type Date = int

  const SecondsPerDay: int := 86400

  /** Swift's integer division, which truncates toward zero. */
  function TruncatingDivision(a: int, b: int): int
    requires b > 0
  {
    if a >= 0 then a / b else -((-a) / b)
  }

  /** Truncating division splits `a` into a quotient and a remainder that
      both carry the sign of `a`, the remainder smaller than `b` in size. */
  lemma TruncatingDivisionSpec(a: int, b: int)
    requires b > 0
    ensures var q, r := TruncatingDivision(a, b), a - TruncatingDivision(a, b) * b;
      -b < r < b && (a >= 0 ==> q >= 0 && r >= 0) && (a <= 0 ==> q <= 0 && r <= 0)
  {
    if a < 0 {
      var n := -a;
      assert n == (n / b) * b + n % b;
      assert a - TruncatingDivision(a, b) * b == -(n % b);
    }
  }

  /** The `.Day` component of the calendar difference between two dates:
      the number of whole days elapsed, negative when `to` is earlier. */
  function WholeDaysBetween(from: Date, to: Date): int
  {
    TruncatingDivision(to - from, SecondsPerDay)
  }

  /** At least one whole day has elapsed exactly when 24 hours have. */
  lemma AtLeastOneWholeDay(from: Date, to: Date)
    ensures WholeDaysBetween(from, to) >= 1 <==> to - from >= SecondsPerDay
  {
    var d := to - from;
    if d < 0 {
      assert (-d) / SecondsPerDay >= 0;
    }
  }

  // ---------------------------------------------------------------------
  // The user-defaults store
  // ---------------------------------------------------------------------

  /** What a key of the defaults store may hold. */
  datatype DefaultsValue = StringValue(text: string) | DateValue(date: Date) | OtherValue

  /** `NSUserDefaults.standardUserDefaults()`: a persistent key-value store.
      `completedActions` is the bookkeeping kept by the `completedAction`
      helper, whose own key format is not part of this model. */
  class UserDefaults {
    var values: map<string, DefaultsValue>
    var completedActions: map<string, Date>

    constructor ()
      ensures values == map[] && completedActions == map[]
    {
      values := map[];
      completedActions := map[];
    }

    method SetObject(value: DefaultsValue, key: string)
      modifies this
      ensures values == old(values)[key := value]
      ensures completedActions == old(completedActions)
    {
      values := values[key := value];
    }

    /** Records that the action named `name` was completed at `now`. */
    method CompletedAction(name: string, now: Date)
      modifies this
      ensures completedActions == old(completedActions)[name := now]
      ensures values == old(values)
    {
      completedActions := completedActions[name := now];
    }
  }

  // ---------------------------------------------------------------------
  // Decimal rendering of integers (string interpolation, `description`)
  // ---------------------------------------------------------------------

  predicate IsDigit(c: char)
  {
    '0' <= c <= '9'
  }

  predicate AllDigits(s: string)
  {
    forall i :: 0 <= i < |s| ==> IsDigit(s[i])
  }

  function DigitChar(d: int): (c: char)
    requires 0 <= d <= 9
    ensures IsDigit(c)
  {
    (('0' as int) + d) as char
  }

  function NatDescription(n: nat): (s: string)
    ensures |s| > 0 && AllDigits(s)
    decreases n
  {
    if n < 10 then [DigitChar(n)] else NatDescription(n / 10) + [DigitChar(n % 10)]
  }

  /** `"\(n)"` and `n.description` for a Swift `Int`. */
  function Description(n: int): (s: string)
    ensures |s| > 0
    ensures forall i :: 0 <= i < |s| ==> IsDigit(s[i]) || s[i] == '-'
  {
    if n < 0 then "-" + NatDescription(-n) else NatDescription(n)
  }

  function ParseNat(s: string): nat
    requires AllDigits(s)
  {
    if s == [] then 0 else ParseNat(s[..|s| - 1]) * 10 + ((s[|s| - 1] as int) - ('0' as int))
  }

  /** `Int(text)`: reads back an optionally negative decimal numeral. */
  function ParseInt(s: string): Option<int>
  {
    if |s| > 0 && AllDigits(s) then Some(ParseNat(s))
    else if |s| > 1 && s[0] == '-' && AllDigits(s[1..]) then Some(0 - ParseNat(s[1..]))
    else None
  }

  lemma {:induction false} NatDescriptionRoundTrip(n: nat)
    ensures ParseNat(NatDescription(n)) == n
  {
    if n >= 10 {
      NatDescriptionRoundTrip(n / 10);
      var s := NatDescription(n);
      assert s[..|s| - 1] == NatDescription(n / 10);
    }
  }

  /** The decimal text of an integer reads back as that integer, so the
      rendering loses nothing. */
  lemma DescriptionRoundTrip(n: int)
    ensures ParseInt(Description(n)) == Some(n)
  {
    NatDescriptionRoundTrip(if n < 0 then -n else n);
    if n < 0 {
      assert Description(n)[1..] == NatDescription(-n);
    }
  }

  // ---------------------------------------------------------------------
  // Strings: search, join and ordering
  // ---------------------------------------------------------------------

  /** `needle` occurs in `s` at offset `i`. */
  predicate OccursAt(s: string, needle: string, i: int)
  {
    0 <= i && i + |needle| <= |s| && s[i..i + |needle|] == needle
  }

  function IndexFrom(s: string, needle: string, from: nat): Option<nat>
    decreases |s| - from
  {
    if from + |needle| > |s| then None
    else if s[from..from + |needle|] == needle then Some(from)
    else IndexFrom(s, needle, from + 1)
  }

  /** `s.rangeOfString(needle)`, as the offset of the range it returns. An
      empty needle is never found. */
  function RangeOfString(s: string, needle: string): Option<nat>
  {
    if needle == [] then None else IndexFrom(s, needle, 0)
  }

  predicate Contains(s: string, needle: string)
  {
    RangeOfString(s, needle).Some?
  }

  lemma {:induction false} IndexFromFindsFirst(s: string, needle: string, from: nat)
    ensures IndexFrom(s, needle, from).Some? ==> exists i :: from <= i && OccursAt(s, needle, i)
    ensures (exists i :: from <= i && OccursAt(s, needle, i)) ==> IndexFrom(s, needle, from).Some?
    ensures IndexFrom(s, needle, from).Some? ==>
      var k := IndexFrom(s, needle, from).value;
      from <= k && OccursAt(s, needle, k) && forall i :: from <= i < k ==> !OccursAt(s, needle, i)
    decreases |s| - from
  {
    if from + |needle| > |s| {
      forall i | from <= i
        ensures !OccursAt(s, needle, i)
      {
      }
    } else if s[from..from + |needle|] != needle {
      IndexFromFindsFirst(s, needle, from + 1);
      assert IndexFrom(s, needle, from) == IndexFrom(s, needle, from + 1);
      if exists i :: from <= i && OccursAt(s, needle, i) {
        var i :| from <= i && OccursAt(s, needle, i);
        assert !OccursAt(s, needle, from);
        assert from + 1 <= i && OccursAt(s, needle, i);
      }
      if IndexFrom(s, needle, from + 1).Some? {
        var k := IndexFrom(s, needle, from + 1).value;
        assert from <= k && OccursAt(s, needle, k);
      }
    } else {
      assert OccursAt(s, needle, from);
    }
  }

  /** `rangeOfString` finds exactly the non-empty needles that occur in the
      text, and reports the first occurrence. */
  lemma RangeOfStringFindsFirst(s: string, needle: string)
    ensures Contains(s, needle) <==> |needle| > 0 && exists i :: OccursAt(s, needle, i)
    ensures Contains(s, needle) ==>
      var k := RangeOfString(s, needle).value;
      OccursAt(s, needle, k) && forall i :: 0 <= i < k ==> !OccursAt(s, needle, i)
  {
    IndexFromFindsFirst(s, needle, 0);
  }

  /** `separator.join(parts)`. */
  function Join(parts: seq<string>, separator: string): (r: string)
  {
    if |parts| == 0 then ""
    else if |parts| == 1 then parts[0]
    else parts[0] + separator + Join(parts[1..], separator)
  }

  /** Each part of a join sits, unchanged, at some offset of the joined text. */
  lemma {:induction false} JoinHoldsParts(parts: seq<string>, separator: string, k: nat)
    requires k < |parts|
    ensures exists i :: OccursAt(Join(parts, separator), parts[k], i)
  {
    var j := Join(parts, separator);
    if |parts| == 1 {
      assert OccursAt(j, parts[k], 0);
    } else if k == 0 {
      assert j[..|parts[0]|] == parts[0];
      assert OccursAt(j, parts[k], 0);
    } else {
      JoinHoldsParts(parts[1..], separator, k - 1);
      var rest := Join(parts[1..], separator);
      var i :| OccursAt(rest, parts[1..][k - 1], i);
      var offset := |parts[0]| + |separator|;
      assert j == parts[0] + separator + rest;
      assert j[offset + i..offset + i + |parts[k]|] == rest[i..i + |parts[k]|];
      assert OccursAt(j, parts[k], offset + i);
    }
  }

  /** Swift's `<` on strings: lexicographic order on characters. */
  predicate StringLess(a: string, b: string)
  {
    if |b| == 0 then false
    else if |a| == 0 then true
    else if a[0] != b[0] then a[0] < b[0]
    else StringLess(a[1..], b[1..])
  }

  lemma {:induction false} StringLessTrichotomy(a: string, b: string)
    ensures StringLess(a, b) ==> !StringLess(b, a)
    ensures a == b || StringLess(a, b) || StringLess(b, a)
  {
    if |a| > 0 && |b| > 0 && a[0] == b[0] {
      StringLessTrichotomy(a[1..], b[1..]);
      if a[1..] == b[1..] {
        assert a == [a[0]] + a[1..] && b == [b[0]] + b[1..];
      }
    }
  }

  lemma {:induction false} StringLessTransitive(a: string, b: string, c: string)
    requires StringLess(a, b) && StringLess(b, c)
    ensures StringLess(a, c)
  {
    if |a| > 0 && a[0] == b[0] && b[0] == c[0] {
      StringLessTransitive(a[1..], b[1..], c[1..]);
    }
  }
}
