/** The generator of change keys: 8 base-64 digits of the clock followed by 10 of a random
    number that is counted up when the clock has not moved. */
module KeyGeneration {
  import opened KeyOrder

  const NUMERALS: string := "0123456789"
  const UPPER_CASE: string := "ABCDEFGHIJKLMNOPQRSTUVWXYZ"
  const LOWER_CASE: string := "abcdefghijklmnopqrstuvwxyz"
  const DICTIONARY: string := "-" + NUMERALS + UPPER_CASE + "_" + LOWER_CASE
  const TIME_DIGITS: nat := 8
  const RANDOM_DIGITS: nat := 10
  const UINT64: nat := 0x1_0000_0000_0000_0000
  const TIME_RANGE: nat := 0x1_0000_0000_0000
  const RANDOM_RANGE: nat := 0x1000_0000_0000_0000

  function Pow64(n: nat): (p: nat)
    ensures p > 0
  {
    if n == 0 then 1 else 64 * Pow64(n - 1)
  }

  /** The character for a digit. */
  function DigitChar(i: nat): char
    requires i < 64
  {
    DICTIONARY[i]
  }

  /** The `width` low base-64 digits of `value`, most significant first. */
  function Digits(value: nat, width: nat): (s: string)
    ensures |s| == width
  {
    if width == 0 then "" else Digits(value / 64, width - 1) + [DigitChar(value % 64)]
  }

  /** What a digit character stands for. */
  function DigitValue(c: char): int {
    if c == '-' then 0 else if c <= '9' then c as int - 47
    else if c <= 'Z' then c as int - 54 else if c == '_' then 37 else c as int - 59
  }

  /** The place of each digit character in ASCII. */
  function Code(i: nat): nat
    requires i < 64
  {
    if i == 0 then 45 else if i < 11 then 47 + i else if i < 37 then 54 + i else if i == 37 then 95 else 59 + i
  }

  /** The characters of the dictionary, part by part. */
  predicate IsDictionary(numerals: string, upperCase: string, lowerCase: string) {
    && |numerals| == 10 && (forall i :: 0 <= i < 10 ==> numerals[i] as int == 48 + i)
    && |upperCase| == 26 && (forall i :: 0 <= i < 26 ==> upperCase[i] as int == 65 + i)
    && |lowerCase| == 26 && (forall i :: 0 <= i < 26 ==> lowerCase[i] as int == 97 + i)
  }

  lemma DictionaryParts()
    ensures IsDictionary(NUMERALS, UPPER_CASE, LOWER_CASE)
  {
  }

  lemma DictionaryAt(numerals: string, upperCase: string, lowerCase: string, i: nat)
    requires IsDictionary(numerals, upperCase, lowerCase) && i < 64
    ensures ("-" + numerals + upperCase + "_" + lowerCase)[i] as int == Code(i)
  {
  }

  lemma DigitCharCode(i: nat)
    requires i < 64
    ensures DigitChar(i) as int == Code(i)
  {
    hide IsDictionary, Code;
    DictionaryParts();
    DictionaryAt(NUMERALS, UPPER_CASE, LOWER_CASE, i);
  }

  /** The dictionary has each character at the place it stands for. */
  lemma DigitCharValue(i: nat)
    requires i < 64
    ensures DigitValue(DigitChar(i)) == i
  {
    hide DigitChar;
    DigitCharCode(i);
  }

  /** The dictionary is in ascending order, so digits compare as what they stand for. */
  lemma DigitCharOrder(i: nat, j: nat)
    requires i < 64 && j < 64
    ensures DigitChar(i) < DigitChar(j) <==> i < j
    ensures DigitChar(i) == DigitChar(j) <==> i == j
  {
    hide DigitChar;
    DigitCharCode(i);
    DigitCharCode(j);
  }

  function Value(s: string): int {
    if s == "" then 0 else 64 * Value(s[..|s| - 1]) + DigitValue(s[|s| - 1])
  }

  lemma ModUnique(a: nat, m: nat, t: nat, x: nat)
    requires x < m && a == m * t + x
    ensures a % m == x
  {
    var d := a / m - t;
    assert m * d == x - a % m by {
      assert a == m * (a / m) + a % m;
    }
    assert d >= 1 ==> m * d >= m;
    assert d <= -1 ==> m * d <= m * -1;
  }

  lemma ModSplit(a: nat, p: nat)
    requires p > 0
    ensures a % (64 * p) == 64 * ((a / 64) % p) + a % 64
  {
    var q := a / 64;
    var x := 64 * (q % p) + a % 64;
    assert q == p * (q / p) + q % p;
    assert a == (64 * p) * (q / p) + x;
    ModUnique(a, 64 * p, q / p, x);
  }

  lemma ValueStep(s: string, c: char)
    ensures Value(s + [c]) == 64 * Value(s) + DigitValue(c)
  {
    assert (s + [c])[..|s|] == s;
  }

  /** Decoding gives back the digits' value: encoding loses only what does not fit. */
  lemma {:induction false} DigitsDecode(v: nat, w: nat)
    ensures Value(Digits(v, w)) == v % Pow64(w)
  {
    hide DigitChar, DigitValue;
    if w > 0 {
      DigitsDecode(v / 64, w - 1);
      DigitCharValue(v % 64);
      ValueStep(Digits(v / 64, w - 1), DigitChar(v % 64));
      hide Value, Digits;
      ModSplit(v, Pow64(w - 1));
    }
  }

  lemma SameEnd(s: string, t: string, c: char, d: char)
    requires |s| == |t|
    ensures s + [c] == t + [d] <==> s == t && c == d
  {
    if s + [c] == t + [d] {
      assert (s + [c])[..|s|] == s && (t + [d])[..|t|] == t;
      assert (s + [c])[|s|] == c && (t + [d])[|t|] == d;
    }
  }

  /** Equality and order of numbers, by their parts above and below the last digit. */
  lemma CompareByParts(a: nat, b: nat, p: nat)
    requires p > 0
    ensures var x, y := (a / 64) % p, (b / 64) % p;
      && (a % (64 * p) == b % (64 * p) <==> x == y && a % 64 == b % 64)
      && (a % (64 * p) < b % (64 * p) <==> x < y || (x == y && a % 64 < b % 64))
  {
    ModSplit(a, p);
    ModSplit(b, p);
  }

  lemma {:induction false} DigitsDetermined(a: nat, b: nat, w: nat)
    ensures Digits(a, w) == Digits(b, w) <==> a % Pow64(w) == b % Pow64(w)
  {
    hide DigitChar;
    if w > 0 {
      DigitsDetermined(a / 64, b / 64, w - 1);
      SameEnd(Digits(a / 64, w - 1), Digits(b / 64, w - 1), DigitChar(a % 64), DigitChar(b % 64));
      DigitCharOrder(a % 64, b % 64);
      CompareByParts(a, b, Pow64(w - 1));
    }
  }

  lemma {:induction false} DigitsOrder(a: nat, b: nat, w: nat)
    ensures Less(Digits(a, w), Digits(b, w)) <==> a % Pow64(w) < b % Pow64(w)
  {
    hide DigitChar;
    if w > 0 {
      DigitsOrder(a / 64, b / 64, w - 1);
      DigitsDetermined(a / 64, b / 64, w - 1);
      LessAtEnd(Digits(a / 64, w - 1), Digits(b / 64, w - 1), DigitChar(a % 64), DigitChar(b % 64));
      DigitCharOrder(a % 64, b % 64);
      CompareByParts(a, b, Pow64(w - 1));
    }
  }

  /** The last time and random number used, last_gen_time_ and last_random_. */
  datatype Stamp = Stamp(time: nat, random: nat)

  predicate WellFormed(s: Stamp) {
    s.time < UINT64 && s.random < UINT64
  }

  function Advance(s: Stamp, clock: nat, random: nat): Stamp {
    if clock == s.time then Stamp(clock, (s.random + 1) % UINT64) else Stamp(clock, random)
  }

  function KeyOf(s: Stamp): (k: Key)
    ensures |k| == 18
  {
    Digits(s.time, TIME_DIGITS) + Digits(s.random, RANDOM_DIGITS)
  }

  lemma Ranges()
    ensures Pow64(TIME_DIGITS) == TIME_RANGE && Pow64(RANDOM_DIGITS) == RANDOM_RANGE
  {
    assert Pow64(3) == 262144;
    assert Pow64(6) == 0x10_0000_0000;
    assert Pow64(9) == 0x40_0000_0000_0000;
  }

  /** The order of stamps, each part cut to the digits it is given. */
  predicate StampLess(s: Stamp, t: Stamp) {
    || s.time % TIME_RANGE < t.time % TIME_RANGE
    || (s.time % TIME_RANGE == t.time % TIME_RANGE && s.random % RANDOM_RANGE < t.random % RANDOM_RANGE)
  }

  /** Keys compare as the stamps they encode. */
  lemma KeysCompareAsStamps(s: Stamp, t: Stamp)
    ensures Less(KeyOf(s), KeyOf(t)) <==> StampLess(s, t)
  {
    Ranges();
    LessConcat(Digits(s.time, TIME_DIGITS), Digits(s.random, RANDOM_DIGITS),
               Digits(t.time, TIME_DIGITS), Digits(t.random, RANDOM_DIGITS));
    DigitsOrder(s.time, t.time, TIME_DIGITS);
    DigitsDetermined(s.time, t.time, TIME_DIGITS);
    DigitsOrder(s.random, t.random, RANDOM_DIGITS);
  }

  /** A key can be decoded to the time and the low 60 bits of the random number. */
  lemma KeyDecodes(s: Stamp)
    ensures Value(KeyOf(s)[..8]) == s.time % TIME_RANGE
    ensures Value(KeyOf(s)[8..]) == s.random % RANDOM_RANGE
  {
    Ranges();
    assert KeyOf(s)[..8] == Digits(s.time, TIME_DIGITS) && KeyOf(s)[8..] == Digits(s.random, RANDOM_DIGITS);
    DigitsDecode(s.time, TIME_DIGITS);
    DigitsDecode(s.random, RANDOM_DIGITS);
  }

  /** The clock has not been set back, still fits its 8 digits, and the counter does not wrap. */
  predicate Orderly(s: Stamp, clock: nat) {
    s.time <= clock < TIME_RANGE && (clock == s.time ==> s.random % RANDOM_RANGE != RANDOM_RANGE - 1)
  }

  lemma SmallMod(x: nat, m: nat)
    requires x < m
    ensures x % m == x
  {
    ModUnique(x, m, 0, x);
  }

  lemma LowPart(n: nat, m: nat, k: nat)
    requires m > 0 && k > 0 && n <= k * m
    ensures (n % (k * m)) % m == n % m
  {
    if n == k * m {
      ModUnique(n, k * m, 1, 0);
      ModUnique(n, m, k, 0);
      SmallMod(0, m);
    } else {
      SmallMod(n, k * m);
    }
  }

  lemma NextMod(n: nat, m: nat)
    requires m > 0
    ensures (n + 1) % m == if n % m == m - 1 then 0 else n % m + 1
  {
    assert n == m * (n / m) + n % m;
    if n % m == m - 1 {
      ModUnique(n + 1, m, n / m + 1, 0);
    } else {
      ModUnique(n + 1, m, n / m, n % m + 1);
    }
  }

  /** Adding one to a counter of `k * m` values is seen in its low part except where that wraps. */
  lemma CountingUp(n: nat, m: nat, k: nat)
    requires m > 0 && k > 0 && n < k * m
    ensures n % m < ((n + 1) % (k * m)) % m <==> n % m != m - 1
  {
    LowPart(n + 1, m, k);
    NextMod(n, m);
  }

  /** What makes the next key greater: the counter's low part does not wrap, or the clock's part has grown, or
      it is the same again after a wrap and the new random number is greater. */
  predicate KeyGrows(s: Stamp, clock: nat, random: nat) {
    if clock == s.time then s.random % RANDOM_RANGE != RANDOM_RANGE - 1
    else
      || s.time % TIME_RANGE < clock % TIME_RANGE
      || (s.time % TIME_RANGE == clock % TIME_RANGE && s.random % RANDOM_RANGE < random % RANDOM_RANGE)
  }

  /** Exactly when the next key follows the last one, for every clock and random number of 64 bits. */
  lemma NextKeyGrows(s: Stamp, clock: nat, random: nat)
    requires WellFormed(s)
    ensures Less(KeyOf(s), KeyOf(Advance(s, clock, random))) <==> KeyGrows(s, clock, random)
  {
    hide KeyOf, Less;
    KeysCompareAsStamps(s, Advance(s, clock, random));
    if clock == s.time {
      CountingUp(s.random, RANDOM_RANGE, 16);
      assert 16 * RANDOM_RANGE == UINT64;
    }
  }

  /** For clocks that fit 8 digits, that is exactly when the clock is orderly. */
  lemma NextKeyGreater(s: Stamp, clock: nat, random: nat)
    requires WellFormed(s) && s.time < TIME_RANGE && clock < TIME_RANGE
    ensures KeyGrows(s, clock, random) <==> Orderly(s, clock)
    ensures Less(KeyOf(s), KeyOf(Advance(s, clock, random))) <==> Orderly(s, clock)
  {
    NextKeyGrows(s, clock, random);
    SmallMod(s.time, TIME_RANGE);
    SmallMod(clock, TIME_RANGE);
  }

  datatype Tick = Tick(clock: nat, random: nat)

  /** The keys of a run of Create calls. */
  function Keys(s: Stamp, ticks: seq<Tick>): (keys: seq<Key>)
    ensures |keys| == |ticks|
    decreases ticks
  {
    if ticks == [] then []
    else
      var t := Advance(s, ticks[0].clock, ticks[0].random);
      [KeyOf(t)] + Keys(t, ticks[1..])
  }

  /** Every call of a run makes a greater key. */
  predicate GrowingRun(s: Stamp, ticks: seq<Tick>)
    decreases ticks
  {
    ticks == [] ||
    (KeyGrows(s, ticks[0].clock, ticks[0].random) &&
     GrowingRun(Advance(s, ticks[0].clock, ticks[0].random), ticks[1..]))
  }

  /** Every call of a run finds an orderly clock. */
  predicate OrderlyRun(s: Stamp, ticks: seq<Tick>)
    decreases ticks
  {
    ticks == [] ||
    (Orderly(s, ticks[0].clock) && OrderlyRun(Advance(s, ticks[0].clock, ticks[0].random), ticks[1..]))
  }

  ghost predicate Ascending(keys: seq<Key>) {
    AscendingBy(keys, (k: Key) => k)
  }

  lemma AscendingCons(a: Key, b: Key, rest: seq<Key>)
    ensures Ascending([a] + ([b] + rest)) <==> Less(a, b) && Ascending([b] + rest)
  {
    var all, tail := [a] + ([b] + rest), [b] + rest;
    assert all[1..] == tail;
    if Less(a, b) && Ascending(tail) {
      forall j | 0 < j < |all| ensures Less(a, all[j]) {
        assert all[j] == tail[j - 1];
        if j > 1 {
          assert Less(tail[0], tail[j - 1]);
          Transitive(a, b, all[j]);
        }
      }
      forall i, j | 0 <= i < j < |all| ensures Less(all[i], all[j]) {
        if i > 0 { assert all[i] == tail[i - 1] && all[j] == tail[j - 1]; }
      }
    }
    if Ascending(all) {
      assert Less(all[0], all[1]);
      forall i, j | 0 <= i < j < |tail| ensures Less(tail[i], tail[j]) {
        assert tail[i] == all[i + 1] && tail[j] == all[j + 1];
      }
    }
  }

  /** Over any run the keys, with the one before the run, ascend exactly when each call's key grows. */
  lemma {:induction false} RunAscends(s: Stamp, ticks: seq<Tick>)
    requires WellFormed(s) && forall i :: 0 <= i < |ticks| ==> ticks[i].clock < UINT64 && ticks[i].random < UINT64
    ensures Ascending([KeyOf(s)] + Keys(s, ticks)) <==> GrowingRun(s, ticks)
    decreases ticks
  {
    hide KeyOf, KeyGrows;
    if ticks == [] {
      assert Ascending([KeyOf(s)]);
    } else {
      var t := Advance(s, ticks[0].clock, ticks[0].random);
      NextKeyGrows(s, ticks[0].clock, ticks[0].random);
      RunAscends(t, ticks[1..]);
      AscendingCons(KeyOf(s), KeyOf(t), Keys(t, ticks[1..]));
      assert Keys(s, ticks) == [KeyOf(t)] + Keys(t, ticks[1..]);
    }
  }

  /** And for clocks that fit, exactly when the clock was orderly all along. */
  lemma {:induction false} FittingRunAscends(s: Stamp, ticks: seq<Tick>)
    requires WellFormed(s) && s.time < TIME_RANGE
    requires forall i :: 0 <= i < |ticks| ==> ticks[i].clock < TIME_RANGE && ticks[i].random < UINT64
    ensures GrowingRun(s, ticks) <==> OrderlyRun(s, ticks)
    decreases ticks
  {
    hide KeyOf, KeyGrows, Orderly;
    if ticks != [] {
      NextKeyGreater(s, ticks[0].clock, ticks[0].random);
      FittingRunAscends(Advance(s, ticks[0].clock, ticks[0].random), ticks[1..]);
    }
  }

  /** A clock that is set back always gives a smaller key. */
  lemma SetBackClock(s: Stamp, clock: nat, random: nat)
    requires clock < s.time < TIME_RANGE
    ensures Less(KeyOf(Advance(s, clock, random)), KeyOf(s))
  {
    SmallMod(s.time, TIME_RANGE);
    SmallMod(clock, TIME_RANGE);
    assert StampLess(Advance(s, clock, random), s);
    KeysCompareAsStamps(Advance(s, clock, random), s);
  }

  lemma NoDigits(value: nat)
    ensures Digits(value, 0) == ""
  {
  }

  /** Writing the lowest digit in front of those written so far, which end at `end`. */
  lemma WriteDigit(id: string, i: nat, end: nat, value: nat, w: nat)
    requires i < end <= |id|
    ensures var next := id[i := DigitChar(value % 64)];
      Digits(value, w + 1) + id[i + 1..end] == Digits(value / 64, w) + next[i..end]
  {
    var digit := DigitChar(value % 64);
    assert id[i := digit][i..end] == [digit] + id[i + 1..end];
    assert Digits(value / 64, w) + [digit] + id[i + 1..end] == Digits(value / 64, w) + ([digit] + id[i + 1..end]);
  }

  /** The loop that fills the places from `first` up to `end`, from the last one down. */
  method WriteDigits(id: string, value: nat, first: nat, end: nat) returns (r: string)
    requires first <= end <= |id|
    ensures |r| == |id| && r[..first] == id[..first] && r[end..] == id[end..]
    ensures r[first..end] == Digits(value, end - first)
  {
    hide Digits, DigitChar;
    r := id;
    var rest := value;
    var i := end;
    NoDigits(value);
    while i > first
      invariant first <= i <= end && |r| == |id|
      invariant r[..i] == id[..i] && r[end..] == id[end..]
      invariant Digits(value, end - first) == Digits(rest, i - first) + r[i..end]
    {
      i := i - 1;
      WriteDigit(r, i, end, rest, i - first);
      ghost var before := r;
      r := r[i := DigitChar(rest % 64)];
      assert r[..i] == before[..i + 1][..i] && r[end..] == before[end..];
      rest := rest / 64;
    }
    NoDigits(rest);
  }

  class KeyGenerator {
    var lastGenTime: nat
    var lastRandom: nat

    constructor ()
      ensures Last() == Stamp(0, 0)
    {
      lastGenTime, lastRandom := 0, 0;
    }

    function Last(): Stamp
      reads this
    {
      Stamp(lastGenTime, lastRandom)
    }

    /** Counts up within one millisecond, and starts from a random number in the next. */
    method Step(milliseconds: nat, random: nat)
      requires milliseconds < UINT64 && random < UINT64 && WellFormed(Last())
      modifies this
      ensures Last() == Advance(old(Last()), milliseconds, random) && WellFormed(Last())
      ensures lastGenTime == milliseconds
      ensures milliseconds != old(lastGenTime) ==> lastRandom == random
      ensures milliseconds == old(lastGenTime) ==>
        lastRandom == if old(lastRandom) == UINT64 - 1 then 0 else old(lastRandom) + 1
    {
      if milliseconds == lastGenTime {
        lastRandom := (lastRandom + 1) % UINT64;
      } else {
        lastRandom := random;
        lastGenTime := milliseconds;
      }
    }

    /** `clock` and `random` are what the time and random sources would answer now. */
    method Create(clock: nat, random: nat) returns (id: Key)
      requires clock < UINT64 && random < UINT64 && WellFormed(Last())
      modifies this
      ensures Last() == Advance(old(Last()), clock, random) && WellFormed(Last())
      ensures id == KeyOf(Last())
    {
      hide Digits, DigitChar, Advance, WellFormed;
      Step(clock, random);
      id := seq(TIME_DIGITS + RANDOM_DIGITS, _ => '-');
      id := WriteDigits(id, lastGenTime, 0, TIME_DIGITS);
      id := WriteDigits(id, lastRandom, TIME_DIGITS, TIME_DIGITS + RANDOM_DIGITS);
      assert id == id[..TIME_DIGITS] + id[TIME_DIGITS..];
    }
  }
}
