/**
 SOA serial numbers: the three policies of internal/zone/serial.go over real
 32-bit arithmetic, and what they promise over whole sequences of deploys.
 */
module Serial {

  const WORD: int := 0x1_0000_0000
  const HALF: int := 0x8000_0000

  type uint32 = x: int | 0 <= x < 0x1_0000_0000

  /** A reading of the clock: seconds since the epoch and the civil date in the
      process's time zone, which is all the serial policies look at. */
  datatype Instant = Instant(unix: int, year: int, month: int, day: int)

  /** A policy is the configured string; anything unrecognised means "date". */
  type Policy = string

  const UNIXTIME: Policy := "unixtime"
  const INCREMENT: Policy := "increment"
  const DATE: Policy := "date"

  /** Go's conversion of a signed integer to uint32: reduction modulo 2^32. */
  function Wrap(n: int): uint32 {
    n % WORD
  }

  function DateSerial(now: Instant): uint32 {
    Wrap(Wrap(Wrap(Wrap(now.year) * 1_000_000) + Wrap(Wrap(now.month) * 10_000)) + Wrap(Wrap(now.day) * 100))
  }

  function NextSerial(policy: Policy, current: uint32, now: Instant): uint32 {
    if policy == UNIXTIME then
      var n := Wrap(now.unix);
      if n <= current then Wrap(current + 1) else n
    else if policy == INCREMENT then
      Wrap(current + 1)
    else
      var base := DateSerial(now);
      if current < base then base else Wrap(current + 1)
  }

  /** The value the policy would like to issue, before looking at the current one. */
  function Base(policy: Policy, now: Instant): uint32 {
    if policy == UNIXTIME then Wrap(now.unix)
    else if policy == INCREMENT then 0
    else DateSerial(now)
  }

  /** The policies by the strings that configure them, for every clock and current serial:
      "increment" looks at no clock, "unixtime" at the seconds, everything else at the date;
      none goes anywhere but to its clock's reading, if that is above, or one further. */
  lemma PoliciesByName(policy: Policy, current: uint32, now: Instant)
    ensures var next, seconds := (current + 1) % 0x1_0000_0000, now.unix % 0x1_0000_0000;
            var date := (now.year * 1_000_000 + now.month * 10_000 + now.day * 100) % 0x1_0000_0000;
            && (policy == "increment" ==> NextSerial(policy, current, now) == next)
            && (policy == "unixtime" ==>
                  NextSerial(policy, current, now) == if seconds > current then seconds else next)
            && (policy != "increment" && policy != "unixtime" ==>
                  NextSerial(policy, current, now) == if date > current then date else next)
  {
    DateSerialWraps(now);
    hide DateSerial;
  }

  lemma SumWraps(a: int, b: int)
    ensures (a % WORD + b % WORD) % WORD == (a + b) % WORD
  {
    var qa, qb := a / WORD, b / WORD;
    assert a + b == (qa + qb) * WORD + (a % WORD + b % WORD);
    MultipleWraps(qa + qb, a % WORD + b % WORD);
  }

  lemma {:induction false} MultipleWraps(q: int, n: int)
    ensures (q * WORD + n) % WORD == n % WORD
    decreases if q < 0 then -q else q
  {
    if q > 0 { MultipleWraps(q - 1, n); } else if q < 0 { MultipleWraps(q + 1, n); }
  }

  lemma ProductWraps(a: int, k: int)
    ensures (a % WORD * k) % WORD == (a * k) % WORD
  {
    var q := a / WORD;
    assert a * k == (q * WORD + a % WORD) * k;
    assert (q * WORD + a % WORD) * k == (q * k) * WORD + a % WORD * k;
    MultipleWraps(q * k, a % WORD * k);
  }

  lemma DateSerialWraps(now: Instant)
    ensures DateSerial(now) == (now.year * 1_000_000 + now.month * 10_000 + now.day * 100) % WORD
  {
    ProductWraps(now.year, 1_000_000);
    ProductWraps(now.month, 10_000);
    ProductWraps(now.day, 100);
    SumWraps(now.year * 1_000_000, now.month * 10_000);
    SumWraps(now.year * 1_000_000 + now.month * 10_000, now.day * 100);
  }

  // ---------------------------------------------------------------------
  // RFC 1982 comparison
  // ---------------------------------------------------------------------

  /** Section 3.2 of RFC 1982 with SERIAL_BITS = 32. */
  predicate Rfc1982Less(a: uint32, b: uint32) {
    || (a < b && b - a < HALF)
    || (a > b && a - b > HALF)
  }

  /** A secondary sees the new serial as newer exactly when the policy does not jump
      half the number space or more; a longer jump is even seen as going back.
      This covers the wrap from 2^32-1 to 0. */
  lemma AdvancesExactlyWhen(policy: Policy, current: uint32, now: Instant)
    ensures Rfc1982Less(current, NextSerial(policy, current, now)) <==> Base(policy, now) - current < HALF
    ensures Rfc1982Less(NextSerial(policy, current, now), current) <==> Base(policy, now) - current > HALF
  {
    if current < Base(policy, now) {
      assert NextSerial(policy, current, now) == Base(policy, now);
    } else if current == WORD - 1 {
      assert NextSerial(policy, current, now) == 0;
    } else {
      assert NextSerial(policy, current, now) == current + 1;
    }
  }

  /** A date within the years a four-digit-year serial can hold without overflow. */
  predicate DateInRange(t: Instant) {
    0 <= t.year <= 4294 && 1 <= t.month <= 12 && 1 <= t.day <= 31
  }

  /** The eight digits YYYYMMDD. */
  function Ymd(t: Instant): int {
    t.year * 10_000 + t.month * 100 + t.day
  }

  lemma DateSerialInRange(t: Instant)
    requires DateInRange(t)
    ensures DateSerial(t) == Ymd(t) * 100
  {
    assert Wrap(t.year) == t.year && Wrap(t.month) == t.month && Wrap(t.day) == t.day;
    assert Wrap(t.year * 1_000_000) == t.year * 1_000_000;
  }

  /** Every deploy through the year 2147 (date policy) or before unix time 2^31
      advances the serial, whatever the current serial is. */
  lemma AlwaysAdvancesThrough2147(policy: Policy, current: uint32, now: Instant)
    requires policy == INCREMENT || (policy == UNIXTIME && 0 <= now.unix < HALF)
          || (policy != UNIXTIME && DateInRange(now) && now.year <= 2147)
    ensures Rfc1982Less(current, NextSerial(policy, current, now))
  {
    if policy != INCREMENT && policy != UNIXTIME {
      DateSerialInRange(now);
    }
    AdvancesExactlyWhen(policy, current, now);
  }

  /** The first failing years: a zone still at serial 0 deployed on 1 January 2148
      is issued a serial that secondaries take for an older one. */
  lemma DateJumpCanGoBack()
    ensures var t := Instant(5617123200, 2148, 1, 1);
            DateInRange(t) && Rfc1982Less(NextSerial(DATE, 0, t), 0)
  {
    var t := Instant(5617123200, 2148, 1, 1);
    DateSerialInRange(t);
    AdvancesExactlyWhen(DATE, 0, t);
  }

  // ---------------------------------------------------------------------
  // Monotonicity, without wrap-around
  // ---------------------------------------------------------------------

  /** What NextSerial computes when nothing wraps. */
  function NextNat(base: int, current: int): int {
    if current < base then base else current + 1
  }

  lemma NextSerialIsNextNat(policy: Policy, current: uint32, now: Instant)
    ensures current < WORD - 1 ==> NextSerial(policy, current, now) == NextNat(Base(policy, now), current)
    ensures current == WORD - 1 ==> NextSerial(policy, current, now) == 0
  {
  }

  /** The clock reads a time at which neither policy's base has wrapped. */
  predicate ClockInRange(t: Instant) {
    0 <= t.unix < WORD && DateInRange(t)
  }

  predicate NotAfter(a: Instant, b: Instant) {
    a.unix <= b.unix && Ymd(a) <= Ymd(b)
  }

  /** The policy base never goes back while the clock does not. */
  lemma BaseMonotone(policy: Policy, a: Instant, b: Instant)
    requires ClockInRange(a) && ClockInRange(b) && NotAfter(a, b)
    ensures Base(policy, a) <= Base(policy, b)
  {
    if policy == UNIXTIME {
      assert Base(policy, a) == a.unix && Base(policy, b) == b.unix;
    } else if policy != INCREMENT {
      DateSerialInRange(a);
      DateSerialInRange(b);
      assert Base(policy, a) == Ymd(a) * 100 && Base(policy, b) == Ymd(b) * 100;
    }
  }

  /** NextNat is monotone in both arguments and strictly above the current serial. */
  lemma NextNatMonotone(b1: int, b2: int, c1: int, c2: int)
    requires b1 <= b2 && c1 <= c2
    ensures NextNat(b1, c1) <= NextNat(b2, c2)
    ensures c1 < NextNat(b1, c1)
    ensures b1 <= NextNat(b1, c1)
  {
  }

  // ---------------------------------------------------------------------
  // Folding the policy over a sequence of deploys
  // ---------------------------------------------------------------------

  /** The serial after deploying at each of the given times, starting from current. */
  function SerialAfter(policy: Policy, current: uint32, times: seq<Instant>): uint32
    decreases |times|
  {
    if times == [] then current
    else NextSerial(policy, SerialAfter(policy, current, times[..|times| - 1]), times[|times| - 1])
  }

  /** No deploy of the sequence starts from the largest serial. */
  ghost predicate NeverWraps(policy: Policy, current: uint32, times: seq<Instant>) {
    forall k :: 0 <= k < |times| ==> SerialAfter(policy, current, times[..k]) < WORD - 1
  }

  /** v is the maximum of current + n and of base(t_i) + (n - i) over all deploys i = 1..n. */
  ghost predicate IsClosedForm(v: int, policy: Policy, current: uint32, times: seq<Instant>) {
    var n := |times|;
    && v >= current + n
    && (forall i :: 0 <= i < n ==> v >= Base(policy, times[i]) + (n - 1 - i))
    && (v == current + n || exists i :: 0 <= i < n && v == Base(policy, times[i]) + (n - 1 - i))
  }

  /** The closed form v exists for every sequence, and is one unbounded step away from
      the closed form w of the sequence without its last deploy. */
  lemma {:induction false} ClosedFormExists(policy: Policy, current: uint32, times: seq<Instant>)
    returns (v: int, w: int)
    ensures IsClosedForm(v, policy, current, times)
    ensures |times| > 0 ==>
      && IsClosedForm(w, policy, current, times[..|times| - 1])
      && v == NextNat(Base(policy, times[|times| - 1]), w)
    decreases |times|
  {
    var n := |times|;
    if n == 0 {
      v, w := current, current;
    } else {
      var w0;
      w, w0 := ClosedFormExists(policy, current, times[..n - 1]);
      var base := Base(policy, times[n - 1]);
      v := NextNat(base, w);
      if w < base {
        assert v == Base(policy, times[n - 1]) + (n - 1 - (n - 1));
      } else if w != current + (n - 1) {
        var i :| 0 <= i < n - 1 && w == Base(policy, times[..n - 1][i]) + (n - 2 - i);
        assert v == Base(policy, times[i]) + (n - 1 - i);
      }
      forall i | 0 <= i < n ensures v >= Base(policy, times[i]) + (n - 1 - i) {
        if i < n - 1 { assert times[i] == times[..n - 1][i]; }
      }
    }
  }

  /** Serial closed form: the sequence of deploys wraps exactly when the closed form
      exceeds 32 bits, and otherwise ends on exactly that value. The deploy times may
      come in any order. */
  lemma {:induction false} SerialClosedForm(policy: Policy, current: uint32, times: seq<Instant>, v: int)
    requires IsClosedForm(v, policy, current, times)
    ensures NeverWraps(policy, current, times) <==> v < WORD
    ensures v < WORD ==> SerialAfter(policy, current, times) == v
    decreases |times|
  {
    var n := |times|;
    if n > 0 {
      var front, last := times[..n - 1], times[n - 1];
      var v', w := ClosedFormExists(policy, current, times);
      assert v' == v;
      SerialClosedForm(policy, current, front, w);
      NextSerialIsNextNat(policy, SerialAfter(policy, current, front), last);
      assert forall k :: 0 <= k < n - 1 ==> times[..k] == front[..k];
      assert NeverWraps(policy, current, times) <==>
        NeverWraps(policy, current, front) && SerialAfter(policy, current, front) < WORD - 1;
    }
  }

  lemma LastStep(policy: Policy, current: uint32, times: seq<Instant>)
    requires times != [] && NeverWraps(policy, current, times)
    ensures var front, last := times[..|times| - 1], times[|times| - 1];
            && NeverWraps(policy, current, front)
            && SerialAfter(policy, current, times) == NextNat(Base(policy, last), SerialAfter(policy, current, front))
  {
    var front, last := times[..|times| - 1], times[|times| - 1];
    assert forall k :: 0 <= k < |front| ==> times[..k] == front[..k];
    NextSerialIsNextNat(policy, SerialAfter(policy, current, front), last);
  }

  /** Consequences used by operators: each deploy's serial is strictly above all earlier
      ones and never behind the policy's base at that deploy. */
  lemma {:induction false} SerialsStrictlyIncrease(policy: Policy, current: uint32, times: seq<Instant>, i: nat)
    requires NeverWraps(policy, current, times)
    requires i < |times|
    ensures SerialAfter(policy, current, times[..i]) < SerialAfter(policy, current, times)
    ensures Base(policy, times[|times| - 1]) <= SerialAfter(policy, current, times)
    decreases |times|
  {
    var n := |times|;
    LastStep(policy, current, times);
    if i < n - 1 {
      SerialsStrictlyIncrease(policy, current, times[..n - 1], i);
      assert times[..n - 1][..i] == times[..i];
    }
  }

  // ---------------------------------------------------------------------
  // The YYYYMMDDnn form
  // ---------------------------------------------------------------------

  function Days(times: seq<Instant>): seq<int> {
    seq(|times|, i requires 0 <= i < |times| => Ymd(times[i]))
  }

  ghost predicate DatesNonDecreasing(times: seq<Instant>) {
    && (forall i :: 0 <= i < |times| ==> DateInRange(times[i]))
    && (forall i, j :: 0 <= i <= j < |times| ==> Ymd(times[i]) <= Ymd(times[j]))
  }

  ghost predicate AtMostHundredADay(times: seq<Instant>) {
    forall d :: multiset(Days(times))[d] <= 100
  }

  lemma {:induction false} CountZero(s: seq<int>, d: int)
    requires forall i :: 0 <= i < |s| ==> s[i] != d
    ensures multiset(s)[d] == 0
  {
    assert d !in s;
  }

  lemma DaysSnoc(times: seq<Instant>, k: nat, d: int)
    requires k < |times|
    ensures multiset(Days(times[..k + 1]))[d] == multiset(Days(times[..k]))[d] + (if Ymd(times[k]) == d then 1 else 0)
  {
    assert Days(times[..k + 1]) == Days(times[..k]) + [Ymd(times[k])];
  }

  lemma DaysPrefix(times: seq<Instant>, k: nat, d: int)
    requires k <= |times|
    ensures multiset(Days(times[..k]))[d] <= multiset(Days(times))[d]
  {
    assert Days(times) == Days(times[..k]) + Days(times[k..]);
  }

  /** The number of earlier deploys on the day of deploy k. */
  ghost function EarlierSameDay(times: seq<Instant>, k: nat): nat
    requires k < |times|
  {
    multiset(Days(times[..k]))[Ymd(times[k])]
  }

  lemma EarlierSameDayStep(times: seq<Instant>, k: nat)
    requires DatesNonDecreasing(times) && AtMostHundredADay(times) && k < |times|
    ensures EarlierSameDay(times, k) <= 99
    ensures k == 0 ==> EarlierSameDay(times, k) == 0
    ensures k > 0 && Ymd(times[k]) == Ymd(times[k - 1]) ==> EarlierSameDay(times, k) == EarlierSameDay(times, k - 1) + 1
    ensures k > 0 && Ymd(times[k]) != Ymd(times[k - 1]) ==> EarlierSameDay(times, k) == 0
  {
    var today := Ymd(times[k]);
    DaysSnoc(times, k, today);
    DaysPrefix(times, k + 1, today);
    if k > 0 {
      DaysSnoc(times, k - 1, today);
      if Ymd(times[k - 1]) != today {
        forall i | 0 <= i < k ensures Days(times[..k])[i] != today {
          assert Ymd(times[i]) <= Ymd(times[k - 1]);
        }
        CountZero(Days(times[..k]), today);
      }
    }
  }

  lemma DateStep(current: uint32, times: seq<Instant>, k: nat)
    requires k < |times| && DateInRange(times[k])
    ensures var before := SerialAfter(DATE, current, times[..k]);
            before < WORD - 1 ==> SerialAfter(DATE, current, times[..k + 1]) == NextNat(Ymd(times[k]) * 100, before)
  {
    assert times[..k + 1][..k] == times[..k];
    DateSerialInRange(times[k]);
    NextSerialIsNextNat(DATE, SerialAfter(DATE, current, times[..k]), times[k]);
  }

  /** With non-decreasing dates, a starting serial below the first day and at most a
      hundred deploys a day, every serial issued is YYYYMMDDnn: the day of its own deploy
      followed by the number of earlier deploys on that day. */
  lemma DateFormIsKept(current: uint32, times: seq<Instant>, k: nat)
    requires DatesNonDecreasing(times) && AtMostHundredADay(times)
    requires k < |times|
    requires current < Ymd(times[0]) * 100
    ensures SerialAfter(DATE, current, times[..k + 1]) == Ymd(times[k]) * 100 + EarlierSameDay(times, k)
    ensures SerialAfter(DATE, current, times[..k + 1]) / 100 == Ymd(times[k])
  {
    hide SerialAfter, EarlierSameDay, Ymd, DatesNonDecreasing, AtMostHundredADay;
    IssuedInForm(current, times, k);
    EarlierSameDayStep(times, k);
    DayOf(Ymd(times[k]), EarlierSameDay(times, k));
  }

  lemma DayOf(day: int, n: nat)
    requires n <= 99
    ensures (day * 100 + n) / 100 == day
  {
  }

  lemma {:induction false} IssuedInForm(current: uint32, times: seq<Instant>, k: nat)
    requires DatesNonDecreasing(times) && AtMostHundredADay(times)
    requires k < |times|
    requires current < Ymd(times[0]) * 100
    ensures SerialAfter(DATE, current, times[..k + 1]) == Ymd(times[k]) * 100 + EarlierSameDay(times, k)
    decreases k
  {
    hide *;
    if k > 0 {
      IssuedInForm(current, times, k - 1);
      DatesAt(times, k);
      DateStep(current, times, k);
      EarlierSameDayStep(times, k);
      EarlierSameDayStep(times, k - 1);
      SerialInRange(times[k - 1], EarlierSameDay(times, k - 1));
      NextInForm(Ymd(times[k]), EarlierSameDay(times, k), Ymd(times[k - 1]), EarlierSameDay(times, k - 1));
    } else {
      FirstIssued(current, times);
    }
  }

  lemma DatesAt(times: seq<Instant>, k: nat)
    requires DatesNonDecreasing(times) && k < |times|
    ensures DateInRange(times[k])
    ensures k > 0 ==> DateInRange(times[k - 1]) && Ymd(times[k - 1]) <= Ymd(times[k])
  {
    hide DateInRange, Ymd;
  }

  lemma FirstIssued(current: uint32, times: seq<Instant>)
    requires DatesNonDecreasing(times) && AtMostHundredADay(times) && times != [] && current < Ymd(times[0]) * 100
    ensures SerialAfter(DATE, current, times[..1]) == Ymd(times[0]) * 100 + EarlierSameDay(times, 0)
  {
    hide *;
    DatesAt(times, 0);
    DateStep(current, times, 0);
    EarlierSameDayStep(times, 0);
    NothingIssued(current, times[..0]);
    SerialInRange(times[0], 0);
    FirstInForm(Ymd(times[0]), current);
  }

  lemma NothingIssued(current: uint32, times: seq<Instant>)
    requires times == []
    ensures SerialAfter(DATE, current, times) == current
  {
  }

  lemma SerialInRange(t: Instant, n: nat)
    requires DateInRange(t) && n <= 99
    ensures Ymd(t) * 100 + n < WORD - 1
  {
  }

  lemma FirstInForm(day: int, current: int)
    requires current < day * 100
    ensures NextNat(day * 100, current) == day * 100
  {
  }

  lemma NextInForm(day: int, n: nat, before: int, m: nat)
    requires before <= day && n <= 99 && m <= 99 && n == if before == day then m + 1 else 0
    ensures NextNat(day * 100, before * 100 + m) == day * 100 + n
  {
  }
}
