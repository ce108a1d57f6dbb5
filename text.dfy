/** Optional values and results, the failure-carrying types used throughout. */
module Wrappers {

  datatype Option<T> = None | Some(value: T) {
    /** The value, or `default` when there is none (Python's `x or default`). */
    function GetOr(default: T): T {
      if Some? then value else default
    }
  }

  /** An operation that either returns a value or raises an error (its message). */
  datatype Result<T> = Ok(value: T) | Err(error: string)
}

/** The few Python string operations the scheduler relies on: lower(), strip(),
    split(sep) with a one-character separator, and int() on a decimal string. */
module Text {
  import opened Wrappers

  /** Whitespace as Python's str.strip() sees it, restricted to Latin-1. */
  predicate IsSpace(c: char) {
    var n := c as int;
    (9 <= n <= 13) || (28 <= n <= 32) || n == 0x85 || n == 0xA0
  }

  predicate IsUpper(c: char) {
    'A' <= c <= 'Z'
  }

  function LowerChar(c: char): char {
    if IsUpper(c) then (c as int + 32) as char else c
  }

  /** str.lower() on ASCII letters. */
  function Lower(s: string): string {
    seq(|s|, i requires 0 <= i < |s| => LowerChar(s[i]))
  }

  function TrimStart(s: string): string {
    if s != [] && IsSpace(s[0]) then TrimStart(s[1..]) else s
  }

  function TrimEnd(s: string): string {
    if s != [] && IsSpace(s[|s| - 1]) then TrimEnd(s[..|s| - 1]) else s
  }

  /** str.strip() with no argument. */
  function Strip(s: string): string {
    TrimEnd(TrimStart(s))
  }

  /** str.split(d): the pieces between occurrences of `d`, empty pieces kept. */
  function Split(s: string, d: char): (parts: seq<string>)
    ensures |parts| >= 1
  {
    if s == [] then [[]]
    else
      var rest := Split(s[1..], d);
      if s[0] == d then [[]] + rest else [[s[0]] + rest[0]] + rest[1..]
  }

  /** d.join(parts), the inverse of Split. */
  function Join(parts: seq<string>, d: char): string
    requires |parts| >= 1
  {
    if |parts| == 1 then parts[0] else parts[0] + [d] + Join(parts[1..], d)
  }

  predicate IsDigit(c: char) {
    '0' <= c <= '9'
  }

  predicate AllDigits(s: string) {
    forall i :: 0 <= i < |s| ==> IsDigit(s[i])
  }

  function DigitsValue(s: string): nat
    requires AllDigits(s)
  {
    if s == [] then 0 else DigitsValue(s[..|s| - 1]) * 10 + (s[|s| - 1] as int - '0' as int)
  }

  /** The text after an optional leading sign. */
  function Unsigned(t: string): string {
    if |t| > 0 && (t[0] == '+' || t[0] == '-') then t[1..] else t
  }

  /** Python's int() on a string: surrounding whitespace, an optional sign and
      at least one ASCII digit; anything else raises (None here). */
  function ParseInt(s: string): (r: Option<int>)
    ensures r.Some? <==> Unsigned(Strip(s)) != [] && AllDigits(Unsigned(Strip(s)))
    ensures r.Some? ==> (Strip(s) != [] &&
                         r.value == (if Strip(s)[0] == '-' then -1 else 1) * DigitsValue(Unsigned(Strip(s))))
  {
    var t := Strip(s);
    var digits := Unsigned(t);
    if digits != [] && AllDigits(digits) then
      var v: int := DigitsValue(digits);
      Some(if t[0] == '-' then -v else v)
    else None
  }

  // ---------------------------------------------------------------------
  // Properties of the helpers

  /** Splitting and joining on the same separator gives the text back. */
  lemma {:induction false} SplitJoin(s: string, d: char)
    ensures Join(Split(s, d), d) == s
  {
    if s != [] {
      SplitJoin(s[1..], d);
      var rest := Split(s[1..], d);
      if s[0] != d {
        if |rest| == 1 {
        } else {
          assert ([s[0]] + rest[0]) + [d] + Join(rest[1..], d) == [s[0]] + (rest[0] + [d] + Join(rest[1..], d));
        }
      }
    }
  }

  /** No piece of a split contains the separator. */
  lemma {:induction false} SplitPieces(s: string, d: char)
    ensures forall p :: p in Split(s, d) ==> d !in p
  {
    if s != [] {
      SplitPieces(s[1..], d);
    }
  }

  lemma {:induction false} TrimStartShape(s: string)
    ensures var r := TrimStart(s); |r| <= |s| && r == s[|s| - |r|..]
    ensures var r := TrimStart(s); r == [] || !IsSpace(r[0])
  {
    if s != [] && IsSpace(s[0]) {
      TrimStartShape(s[1..]);
    }
  }

  lemma {:induction false} TrimEndShape(s: string)
    ensures var r := TrimEnd(s); |r| <= |s| && r == s[..|r|]
    ensures var r := TrimEnd(s); r == [] || !IsSpace(r[|r| - 1])
  {
    if s != [] && IsSpace(s[|s| - 1]) {
      TrimEndShape(s[..|s| - 1]);
    }
  }

  lemma {:induction false} TrimEndKeepsStart(s: string)
    requires s == [] || !IsSpace(s[0])
    ensures var r := TrimEnd(s); r == [] || !IsSpace(r[0])
  {
    TrimEndShape(s);
  }

  /** Stripped text has no whitespace at either end and is part of the input. */
  lemma StripShape(s: string)
    ensures var r := Strip(s); r == [] || (!IsSpace(r[0]) && !IsSpace(r[|r| - 1]))
    ensures |Strip(s)| <= |s|
  {
    TrimStartShape(s);
    TrimEndShape(TrimStart(s));
    TrimEndKeepsStart(TrimStart(s));
  }

  /** Stripped text is a contiguous part of the input, so it holds no
      character the input lacks. */
  lemma StripInfix(s: string)
    ensures exists i, j :: 0 <= i <= j <= |s| && Strip(s) == s[i..j]
    ensures forall c :: c in Strip(s) ==> c in s
  {
    var t := TrimStart(s);
    TrimStartShape(s);
    TrimEndShape(t);
    var i := |s| - |t|;
    var j := i + |TrimEnd(t)|;
    assert Strip(s) == s[i..j];
  }

  /** Text without whitespace at its ends is left alone by Strip. */
  lemma StripClean(s: string)
    requires s == [] || (!IsSpace(s[0]) && !IsSpace(s[|s| - 1]))
    ensures Strip(s) == s
  {
  }

  lemma LowerClean(s: string)
    requires forall i :: 0 <= i < |s| ==> !IsUpper(s[i])
    ensures Lower(s) == s
  {
  }

  lemma {:induction false} TrimStartSpaces(lead: string, x: string)
    requires forall i :: 0 <= i < |lead| ==> IsSpace(lead[i])
    requires x != [] && !IsSpace(x[0])
    ensures TrimStart(lead + x) == x
  {
    if lead != [] {
      assert (lead + x)[1..] == lead[1..] + x;
      TrimStartSpaces(lead[1..], x);
    }
  }

  lemma {:induction false} TrimEndSpaces(x: string, trail: string)
    requires forall i :: 0 <= i < |trail| ==> IsSpace(trail[i])
    requires x != [] && !IsSpace(x[|x| - 1])
    ensures TrimEnd(x + trail) == x
  {
    if trail != [] {
      var n := |trail| - 1;
      assert (x + trail)[..|x + trail| - 1] == x + trail[..n];
      TrimEndSpaces(x, trail[..n]);
    }
  }

  /** int() of digits with an optional sign and surrounding whitespace is
      their decimal value, negated after a minus. */
  lemma ParseIntSigned(lead: string, sign: string, digits: string, trail: string)
    requires forall i :: 0 <= i < |lead| ==> IsSpace(lead[i])
    requires forall i :: 0 <= i < |trail| ==> IsSpace(trail[i])
    requires sign == "" || sign == "+" || sign == "-"
    requires digits != [] && AllDigits(digits)
    ensures ParseInt(lead + sign + digits + trail)
      == Some((if sign == "-" then -1 else 1) * DigitsValue(digits))
  {
    var core := sign + digits;
    assert lead + sign + digits + trail == lead + (core + trail);
    assert core[|core| - 1] == digits[|digits| - 1];
    TrimEndSpaces(core, trail);
    assert TrimStart(lead + (core + trail)) == core + trail by {
      TrimStartSpaces(lead, core + trail);
    }
    assert Strip(lead + sign + digits + trail) == core;
    assert Unsigned(core) == digits;
  }

  /** Lowering commutes with stripping and both are idempotent, so normalising
      normalised text changes nothing. */
  lemma {:induction false} NormaliseIdempotent(s: string)
    ensures Strip(Lower(Strip(Lower(s)))) == Strip(Lower(s))
  {
    var t := Strip(Lower(s));
    StripShape(Lower(s));
    TrimStartShape(Lower(s));
    TrimEndShape(TrimStart(Lower(s)));
    assert forall i :: 0 <= i < |t| ==> !IsUpper(t[i]);
    LowerClean(t);
    StripClean(t);
  }
}

/** Entities and defaults shared by the bulk service and the scheduler
    (the columns and defaults of the ORM models). */
module Models {
  import opened Wrappers

  /** Post.status: 'scheduled', 'posting', 'posted', 'partial', 'failed'. */
  datatype PostStatus = Scheduled | Posting | Posted | Partial | Failed

  /** PostQueue.status: 'pending' (the column default), 'processing', 'completed', 'failed'. */
  datatype QueueStatus = Pending | Processing | Completed | Failed

  /** BulkUpload.status: 'processing' (the column default), 'completed', 'failed'. */
  datatype UploadStatus = Processing | Completed | Failed

  /** PostQueue.max_attempts column default. */
  const DefaultMaxAttempts: nat := 3

  /** The platforms a post goes to when none are named. */
  const AllPlatforms: seq<string> := ["tiktok", "instagram", "youtube"]

  /** What a platform publisher returns: the dictionary with 'success',
      'post_id', 'share_url' and 'error'. */
  datatype Reply = Reply(success: bool, postId: Option<string>, shareUrl: Option<string>, error: Option<string>)

  /** The error text recorded for a failed reply without one. */
  function ReplyError(r: Reply): string {
    r.error.GetOr("Unknown error")
  }
}

/** Time as whole minutes; the day of minute t is t / MinutesPerDay. */
module Clock {

  const MinutesPerDay: int := 1440

  /** datetime.replace(hour=h, minute=m, second=0, microsecond=0): the same day, at h:m. */
  function AtTimeOfDay(t: int, hour: int, minute: int): int {
    (t / MinutesPerDay) * MinutesPerDay + hour * 60 + minute
  }

  lemma {:induction false} MulAtLeast(d: int, n: int)
    requires d >= 1 && n >= 1
    ensures d * n >= n
  {
    if d > 1 {
      MulAtLeast(d - 1, n);
      assert d * n == (d - 1) * n + n;
    }
  }

  /** Euclidean division is determined by quotient and remainder. */
  lemma DivModUnique(a: int, n: int, q: int, r: int)
    requires n > 0 && 0 <= r < n && a == q * n + r
    ensures a / n == q && a % n == r
  {
    var q', r' := a / n, a % n;
    assert a == q' * n + r';
    if q > q' {
      MulAtLeast(q - q', n);
    } else if q < q' {
      MulAtLeast(q' - q, n);
    }
  }

  /** Setting the time of day keeps the day and gives that minute of it. */
  lemma AtTimeOfDayParts(t: int, hour: int, minute: int)
    requires 0 <= hour < 24 && 0 <= minute < 60
    ensures AtTimeOfDay(t, hour, minute) / MinutesPerDay == t / MinutesPerDay
    ensures AtTimeOfDay(t, hour, minute) % MinutesPerDay == hour * 60 + minute
  {
    DivModUnique(AtTimeOfDay(t, hour, minute), MinutesPerDay, t / MinutesPerDay, hour * 60 + minute);
  }

  /** Adding k whole days moves the day by k. */
  lemma DayShift(t: int, k: int)
    ensures (t + k * MinutesPerDay) / MinutesPerDay == t / MinutesPerDay + k
  {
    DivModUnique(t + k * MinutesPerDay, MinutesPerDay, t / MinutesPerDay + k, t % MinutesPerDay);
  }

  /** Stepping a counter by one advances its quotient exactly when the new
      value is a multiple of n. */
  lemma NextQuotient(t: nat, n: int)
    requires n > 0
    ensures (t + 1) / n == t / n + (if (t + 1) % n == 0 then 1 else 0)
  {
    if t % n + 1 == n {
      DivModUnique(t + 1, n, t / n + 1, 0);
    } else {
      DivModUnique(t + 1, n, t / n, t % n + 1);
    }
  }

  /** Integer division by a positive number is monotone. */
  lemma DivMonotone(i: int, j: int, n: int)
    requires i <= j && n > 0
    ensures i / n <= j / n
  {
    var qi, qj := i / n, j / n;
    assert i == qi * n + i % n && j == qj * n + j % n;
    if qi > qj {
      MulAtLeast(qi - qj, n);
    }
  }

  /** One more round of n moves the quotient by one and keeps the remainder. */
  lemma NextRound(i: nat, n: int)
    requires n > 0
    ensures (i + n) / n == i / n + 1 && (i + n) % n == i % n
  {
    var q := i / n;
    assert i == q * n + i % n;
    assert (q + 1) * n == q * n + n;
    DivModUnique(i + n, n, q + 1, i % n);
  }

  /** The daily scheduling step: the time of day set on the round's date, and
      the date moving on by a day exactly when a round of n slots completes. */
  lemma DailyStep(start: int, n: int, idx: nat, hour: int, minute: int)
    requires n > 0
    ensures AtTimeOfDay(start + (idx / n) * MinutesPerDay, hour, minute)
      == (start / MinutesPerDay + idx / n) * MinutesPerDay + hour * 60 + minute
    ensures start + ((idx + 1) / n) * MinutesPerDay
      == start + (idx / n) * MinutesPerDay + (if (idx + 1) % n == 0 then MinutesPerDay else 0)
  {
    DayShift(start, idx / n);
    NextQuotient(idx, n);
  }
}
