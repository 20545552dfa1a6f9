/** src/utils/helpers.js: the tier classifier and the small pure helpers the
    controllers and models share. */
module Helpers {
  import opened Common

  // ---------------------------------------------------------------------
  // Tier classifier

  datatype TierName = Bronze | Silver | Gold

  /** A tier and its points multiplier in percent (1.00, 1.25, 1.50 are exact
      binary fractions, so 100 / 125 / 150 with a floor division is exact). */
  datatype Tier = Tier(name: TierName, multiplier: nat)

  const SilverThreshold: int := 10000
  const GoldThreshold: int := 50000

  /** The name stored in the `loyalty_tier` column. */
  function NameOf(t: TierName): string
  {
    match t
    case Bronze => "bronze"
    case Silver => "silver"
    case Gold => "gold"
  }

  /** Position of a tier in the order bronze < silver < gold. */
  function Rank(t: TierName): nat
  {
    match t
    case Bronze => 0
    case Silver => 1
    case Gold => 2
  }

  function CalculateTier(totalPoints: int): (t: Tier)
    ensures t.name == Gold <==> totalPoints >= GoldThreshold
    ensures t.name == Silver <==> SilverThreshold <= totalPoints < GoldThreshold
    ensures t.name == Bronze <==> totalPoints < SilverThreshold
    ensures t.multiplier == 100 + 25 * Rank(t.name)
  {
    if totalPoints >= GoldThreshold then Tier(Gold, 150)
    else if totalPoints >= SilverThreshold then Tier(Silver, 125)
    else Tier(Bronze, 100)
  }

  /** A larger lifetime total never gives a lower tier or a smaller multiplier. */
  lemma CalculateTierMonotone(a: int, b: int)
    requires a <= b
    ensures Rank(CalculateTier(a).name) <= Rank(CalculateTier(b).name)
    ensures CalculateTier(a).multiplier <= CalculateTier(b).multiplier
  {
  }

  /** Tier names are distinct, so comparing stored names compares tiers. */
  lemma NameOfInjective(s: TierName, t: TierName)
    ensures NameOf(s) == NameOf(t) <==> s == t
  {
  }

  // ---------------------------------------------------------------------
  // Pagination

  datatype Page = Page(limit: int, offset: int)

  /** `paginate(page, perPage)` on already-parsed integers. */
  function Paginate(page: int, perPage: int): (p: Page)
    ensures p.limit <= 100
    ensures p.limit == perPage || p.limit == 100
    ensures p.limit == perPage <==> perPage <= 100
    ensures page <= 1 ==> p.offset == 0
    ensures p.offset == (page - 1) * p.limit || (page < 1 && p.offset == 0)
    ensures perPage >= 0 ==> 0 <= p.limit && 0 <= p.offset
  {
    var limit := if perPage < 100 then perPage else 100;
    var first := if page > 1 then page else 1;
    Page(limit, (first - 1) * limit)
  }

  // ---------------------------------------------------------------------
  // PPG payment

  /** `calculatePPGPayment`: real arithmetic, zero for a zero target. */
  function PpgPayment(activeItems: real, receiptsProcessed: real, target: real, dailyWage: real): (pay: real)
    ensures target == 0.0 ==> pay == 0.0
    ensures target != 0.0 ==> pay * target == activeItems * receiptsProcessed * dailyWage
    ensures activeItems == 0.0 || receiptsProcessed == 0.0 || dailyWage == 0.0 ==> pay == 0.0
  {
    if target == 0.0 then 0.0 else (activeItems * receiptsProcessed / target) * dailyWage
  }

  /** The unit-test figures: 5 items, 100 of 200 receipts, wage 1000 gives
      2500; 300 of 200 receipts gives 7500. */
  lemma PpgPaymentExamples()
    ensures PpgPayment(5.0, 100.0, 200.0, 1000.0) == 2500.0
    ensures PpgPayment(5.0, 300.0, 200.0, 1000.0) == 7500.0
    ensures PpgPayment(5.0, 100.0, 0.0, 1000.0) == 0.0
  {
  }

  // ---------------------------------------------------------------------
  // Lateness

  const MsPerMinute: int := 60000
  const MsPerHour: int := 3600000
  /** Fifteen minutes of grace after the shift start. */
  const GraceMs: int := 15 * 60000

  /** `isLateForShift(clockInTime, 'HH:MM:SS')`: the shift start is the clock-in
      day at HH:MM:00.000 (setHours); late when more than 15 minutes have
      passed. Times are milliseconds since the clock-in day's midnight. */
  function IsLateForShift(clockInMs: int, shiftHours: int, shiftMinutes: int): (late: bool)
    ensures late <==> clockInMs > shiftHours * MsPerHour + shiftMinutes * MsPerMinute + GraceMs
  {
    var shiftStart := shiftHours * MsPerHour + shiftMinutes * MsPerMinute;
    var diffMs := clockInMs - shiftStart;
    // diffMs / 60000 > 15 on reals is the same as diffMs > 15 * 60000
    diffMs > 15 * MsPerMinute
  }

  /** With the default shift start '08:00:00', a clock-in is late iff it is
      strictly after 08:15:00.000. */
  lemma DefaultShiftLateAfterQuarterPastEight(clockInMs: int)
    ensures IsLateForShift(clockInMs, 8, 0) <==> clockInMs > 8 * MsPerHour + 15 * MsPerMinute
  {
  }

  // ---------------------------------------------------------------------
  // Filename sanitising

  function LowerChar(c: char): char
  {
    if 'A' <= c <= 'Z' then (c as int + 32) as char else c
  }

  /** `toLowerCase()` on ASCII letters. */
  function ToLower(s: string): (r: string)
    ensures |r| == |s|
    ensures forall i :: 0 <= i < |s| ==> r[i] == LowerChar(s[i])
  {
    if s == [] then [] else [LowerChar(s[0])] + ToLower(s[1..])
  }

  /** The character class `[a-z0-9.-]`. */
  predicate Kept(c: char)
  {
    ('a' <= c <= 'z') || ('0' <= c <= '9') || c == '.' || c == '-'
  }

  /** `.replace(/[^a-z0-9.-]/g, '_')` */
  function ReplaceDisallowed(s: string): (r: string)
    ensures |r| == |s|
    ensures forall i :: 0 <= i < |s| ==> r[i] == if Kept(s[i]) then s[i] else '_'
  {
    if s == [] then [] else [if Kept(s[0]) then s[0] else '_'] + ReplaceDisallowed(s[1..])
  }

  /** `.replace(/_{2,}/g, '_')`: every run of two or more underscores becomes one. */
  function CollapseUnderscores(s: string): (r: string)
    ensures |r| <= |s|
    ensures s != [] ==> r != [] && r[0] == s[0]
  {
    if |s| >= 2 && s[0] == '_' && s[1] == '_' then CollapseUnderscores(s[1..])
    else if s == [] then []
    else [s[0]] + CollapseUnderscores(s[1..])
  }

  function SanitizeFilename(filename: string): string
  {
    CollapseUnderscores(ReplaceDisallowed(ToLower(filename)))
  }

  predicate NoDoubleUnderscore(s: string)
  {
    forall i :: 0 <= i < |s| - 1 ==> !(s[i] == '_' && s[i + 1] == '_')
  }

  predicate SafeChar(c: char)
  {
    Kept(c) || c == '_'
  }

  lemma {:induction false} CollapseKeepsChars(s: string)
    ensures forall c :: c in CollapseUnderscores(s) ==> c in s
  {
    if |s| >= 2 && s[0] == '_' && s[1] == '_' {
      CollapseKeepsChars(s[1..]);
    } else if s != [] {
      CollapseKeepsChars(s[1..]);
    }
  }

  lemma {:induction false} CollapseNoDouble(s: string)
    ensures NoDoubleUnderscore(CollapseUnderscores(s))
  {
    if |s| >= 2 && s[0] == '_' && s[1] == '_' {
      CollapseNoDouble(s[1..]);
    } else if s != [] {
      CollapseNoDouble(s[1..]);
      var t := CollapseUnderscores(s[1..]);
      var r := [s[0]] + t;
      assert CollapseUnderscores(s) == r;
      if t != [] {
        // t starts with s[1]; when s[0] is '_' the guard above ensures s[1] is not
        assert t[0] == s[1];
      }
      forall i | 0 <= i < |r| - 1 ensures !(r[i] == '_' && r[i + 1] == '_') {
        if i > 0 {
          assert r[i] == t[i - 1] && r[i + 1] == t[i];
        }
      }
    }
  }

  /** Collapsing is idempotent: a string without `__` is left as it is. */
  lemma {:induction false} CollapseFixesClean(s: string)
    requires NoDoubleUnderscore(s)
    ensures CollapseUnderscores(s) == s
  {
    if s != [] {
      assert NoDoubleUnderscore(s[1..]) by {
        forall i | 0 <= i < |s[1..]| - 1 ensures !(s[1..][i] == '_' && s[1..][i + 1] == '_') {
          assert s[1..][i] == s[i + 1] && s[1..][i + 1] == s[i + 2];
        }
      }
      CollapseFixesClean(s[1..]);
      assert s == [s[0]] + s[1..];
    }
  }

  /** The sanitised name is lower case, uses only `[a-z0-9._-]`, never holds
      two consecutive underscores, and sanitising it again changes nothing. */
  lemma SanitizeFilenameSafe(filename: string)
    ensures forall c :: c in SanitizeFilename(filename) ==> SafeChar(c) && !('A' <= c <= 'Z')
    ensures NoDoubleUnderscore(SanitizeFilename(filename))
    ensures |SanitizeFilename(filename)| <= |filename|
    ensures SanitizeFilename(SanitizeFilename(filename)) == SanitizeFilename(filename)
  {
    var r := ReplaceDisallowed(ToLower(filename));
    CollapseKeepsChars(r);
    CollapseNoDouble(r);
    var out := SanitizeFilename(filename);
    forall c | c in out ensures SafeChar(c) {
      assert c in r;
    }
    // sanitising a safe string: lowering and replacing are identities on it
    forall i | 0 <= i < |out| ensures ToLower(out)[i] == out[i] {
      assert out[i] in out;
    }
    assert ToLower(out) == out;
    forall i | 0 <= i < |out| ensures ReplaceDisallowed(out)[i] == out[i] {
      assert out[i] in out;
    }
    assert ReplaceDisallowed(out) == out;
    CollapseFixesClean(out);
  }

  // ---------------------------------------------------------------------
  // Response envelopes

  datatype Response<D> = Response(success: bool, message: string, data: Option<D>, errors: Option<seq<string>>)

  /** `successResponse(data, message = 'Success')` */
  function SuccessResponse<D>(data: D, message: string): (r: Response<D>)
    ensures r.success && r.message == message && r.data == Some(data) && r.errors.None?
  {
    Response(true, message, Some(data), None)
  }

  /** `errorResponse(message, errors = null)`: the `errors` member is added only
      when errors is given (an array is truthy even when empty). */
  function ErrorResponse<D>(message: string, errors: Option<seq<string>>): (r: Response<D>)
    ensures !r.success && r.message == message && r.data.None?
    ensures r.errors.Some? <==> errors.Some?
    ensures r.errors == errors
  {
    Response(false, message, None, errors)
  }

  const DefaultSuccessMessage: string := "Success"
}
