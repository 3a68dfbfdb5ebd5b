/**
 * The MEXC polling side of mexc_poll.py: VWAP reset flags from bar
 * timestamps, and one evaluated poll of a symbol — the indicator values of
 * the last bar, the note list, the dedup key and the one send per poll.
 *
 * Fetching the bars, the `while True` loop, its sleeps and the number
 * formatting of the message body are outside the model: the bars, the
 * rolling sigma of the last bar, a number formatter and the clock are
 * parameters.
 */
module MexcPoll {
  import opened Wrappers
  import opened Indicators
  import Router

  // ---------------------------------------------------------------------
  // VWAP reset flags (mexc_poll.py:7-21)
  // ---------------------------------------------------------------------

  const MsPerDay: int := 86400000

  /** The UTC calendar day of a millisecond timestamp (floor division). */
  function Day(tsMs: int): int
  {
    tsMs / MsPerDay
  }

  lemma DayMonotone(a: int, b: int)
    requires a <= b
    ensures Day(a) <= Day(b)
  {
    assert a == MsPerDay * (a / MsPerDay) + a % MsPerDay;
    assert b == MsPerDay * (b / MsPerDay) + b % MsPerDay;
  }

  function UpperChar(c: char): char
  {
    if 'a' <= c <= 'z' then (c as int - 'a' as int + 'A' as int) as char else c
  }

  /** `str.upper()` on ASCII letters. */
  function Upper(s: string): (r: string)
    ensures |r| == |s| && forall i :: 0 <= i < |s| ==> r[i] == UpperChar(s[i])
  {
    seq(|s|, i requires 0 <= i < |s| => UpperChar(s[i]))
  }

  /**
   * Upper-casing normalises the letter case: the result has no lower-case
   * ASCII letter, applying it again changes nothing, and a string without
   * lower-case letters is its own upper case. So `Upper(mode) == "DAILY"`
   * accepts every spelling of the mode that differs only in letter case.
   */
  lemma UpperNormalizes(s: string)
    ensures forall i :: 0 <= i < |s| ==> !('a' <= Upper(s)[i] <= 'z')
    ensures Upper(Upper(s)) == Upper(s)
    ensures (forall i :: 0 <= i < |s| ==> !('a' <= s[i] <= 'z')) ==> Upper(s) == s
  {
  }

  function Timestamps(bars: seq<Candle>): (r: seq<int>)
    ensures |r| == |bars| && forall i :: 0 <= i < |bars| ==> r[i] == bars[i].ts
  {
    seq(|bars|, i requires 0 <= i < |bars| => bars[i].ts)
  }

  /** Bar `k` opens a UTC day: it is the first bar or its date differs from the previous bar's. */
  predicate OpensDay(ts: seq<int>, k: nat)
    requires k < |ts|
  {
    k == 0 || Day(ts[k]) != Day(ts[k - 1])
  }

  /**
   * The reset flags of a mode: in `DAILY` mode (any letter case) the first
   * bar and every bar whose UTC date differs from the previous bar's; in
   * any other mode, `NONE` and `SESSION` included, none.
   */
  function ResetFlags(ts: seq<int>, mode: string): (r: seq<bool>)
    ensures |r| == |ts|
  {
    seq(|ts|, i requires 0 <= i < |ts| => Upper(mode) == "DAILY" && OpensDay(ts, i))
  }

  /**
   * `_reset_index_for_vwap`: starts from all-false flags and, in `DAILY`
   * mode, walks the bars keeping the previous bar's day in `prev`.
   */
  method ResetIndexForVwap(ts: seq<int>, mode: string) returns (reset: seq<bool>)
    ensures reset == ResetFlags(ts, mode)
    ensures Upper(mode) != "DAILY" ==> forall i :: 0 <= i < |ts| ==> !reset[i]
    ensures Upper(mode) == "DAILY" ==> forall i :: 0 <= i < |ts| ==> (reset[i] <==> OpensDay(ts, i))
  {
    var flags := new bool[|ts|](_ => false);
    var m := Upper(mode);
    if m == "NONE" {
      reset := flags[..];
      assert m != "DAILY";
      assert forall k :: 0 <= k < |ts| ==> reset[k] == ResetFlags(ts, mode)[k];
      return;
    }
    if m == "DAILY" {
      var prev: Option<int> := None;
      var i := 0;
      while i < |ts|
        invariant 0 <= i <= |ts|
        invariant prev == if i == 0 then None else Some(Day(ts[i - 1]))
        invariant forall k :: 0 <= k < i ==> flags[k] == OpensDay(ts, k)
        invariant forall k :: i <= k < |ts| ==> !flags[k]
      {
        var d := Day(ts[i]);
        if prev.None? || d != prev.value {
          flags[i] := true;
          prev := Some(d);
        }
        assert flags[i] == OpensDay(ts, i);
        i := i + 1;
      }
      reset := flags[..];
      assert forall k :: 0 <= k < |ts| ==> reset[k] == ResetFlags(ts, mode)[k];
      return;
    }
    reset := flags[..];
    assert forall k :: 0 <= k < |ts| ==> reset[k] == ResetFlags(ts, mode)[k];
  }

  /**
   * In `DAILY` mode the VWAP session of bar `i` is a run of bars on bar
   * `i`'s UTC day that starts where the day changes.
   */
  lemma {:induction false} DailySessionIsOneDay(ts: seq<int>, mode: string, i: nat)
    requires Upper(mode) == "DAILY" && i < |ts|
    ensures forall k :: SessionStart(ResetFlags(ts, mode), i) <= k <= i ==> Day(ts[k]) == Day(ts[i])
    ensures SessionStart(ResetFlags(ts, mode), i) > 0 ==>
      Day(ts[SessionStart(ResetFlags(ts, mode), i) - 1]) != Day(ts[i])
  {
    var flags := ResetFlags(ts, mode);
    var s := SessionStart(flags, i);
    if s < i {
      assert !flags[i];
      assert Day(ts[i]) == Day(ts[i - 1]);
      assert SessionStart(flags, i - 1) == s;
      DailySessionIsOneDay(ts, mode, i - 1);
    } else if s > 0 {
      assert flags[s];
    }
  }

  /**
   * With timestamps in order, every bar before the daily session of bar
   * `i` lies on an earlier UTC day: the session is exactly bar `i`'s day
   * so far.
   */
  lemma DailySessionIsWholeDay(ts: seq<int>, mode: string, i: nat)
    requires Upper(mode) == "DAILY" && i < |ts|
    requires forall j, k :: 0 <= j <= k < |ts| ==> ts[j] <= ts[k]
    ensures forall k :: 0 <= k < SessionStart(ResetFlags(ts, mode), i) ==> Day(ts[k]) < Day(ts[i])
  {
    var s := SessionStart(ResetFlags(ts, mode), i);
    DailySessionIsOneDay(ts, mode, i);
    forall k | 0 <= k < s
      ensures Day(ts[k]) < Day(ts[i])
    {
      DayMonotone(ts[k], ts[s - 1]);
      DayMonotone(ts[s - 1], ts[i]);
    }
  }

  // ---------------------------------------------------------------------
  // Notes (mexc_poll.py:45-61)
  // ---------------------------------------------------------------------

  datatype Note =
    | CloseAboveEma20 | CloseBelowEma20
    | AboveVwap | BelowVwap
    | RsiOversold | RsiOverbought
    | HighSweep
    | AbovePlus2Sigma | AbovePlus1Sigma
    | BelowMinus2Sigma | BelowMinus1Sigma
    | LowSweep

  /** The position class of a note: notes appear in increasing rank. */
  function Rank(n: Note): nat
  {
    match n
    case CloseAboveEma20 => 0
    case CloseBelowEma20 => 0
    case AboveVwap => 1
    case BelowVwap => 1
    case RsiOversold => 2
    case RsiOverbought => 3
    case HighSweep => 4
    case AbovePlus2Sigma => 5
    case AbovePlus1Sigma => 5
    case BelowMinus2Sigma => 6
    case BelowMinus1Sigma => 6
    case LowSweep => 7
  }

  /** The poll's settings, as plain values. */
  datatype Settings = Settings(
    rsiPeriod: int,
    rsiOversold: real,
    rsiOverbought: real,
    vwapReset: string,
    sweepLookback: int,
    enableVwapBandAlerts: bool,
    vwapBandWindow: int)

  const DefaultSettings: Settings := Settings(14, 30.0, 70.0, "DAILY", 20, true, 50)

  /** The indicator values of the last bar that the notes are drawn from. */
  datatype Indication = Indication(
    close: real,
    rsi: real,
    ema20: real,
    vwap: real,
    highSweep: bool,
    lowSweep: bool,
    bands: Option<Bands>)

  /** When a note belongs in the list. A NaN band (`None`) warrants no band note. */
  predicate Warranted(n: Note, x: Indication, s: Settings)
  {
    match n
    case CloseAboveEma20 => x.close > x.ema20
    case CloseBelowEma20 => !(x.close > x.ema20)
    case AboveVwap => x.close > x.vwap
    case BelowVwap => !(x.close > x.vwap)
    case RsiOversold => x.rsi <= s.rsiOversold
    case RsiOverbought => x.rsi >= s.rsiOverbought
    case HighSweep => x.highSweep
    case AbovePlus2Sigma =>
      s.enableVwapBandAlerts && x.bands.Some? && x.close >= x.bands.value.plus2
    case AbovePlus1Sigma =>
      s.enableVwapBandAlerts && x.bands.Some? && !(x.close >= x.bands.value.plus2) && x.close >= x.bands.value.plus1
    case BelowMinus2Sigma =>
      s.enableVwapBandAlerts && x.bands.Some? && x.close <= x.bands.value.minus2
    case BelowMinus1Sigma =>
      s.enableVwapBandAlerts && x.bands.Some? && !(x.close <= x.bands.value.minus2) && x.close <= x.bands.value.minus1
    case LowSweep => x.lowSweep
  }

  ghost predicate StrictlyRanked(notes: seq<Note>)
  {
    forall i, j :: 0 <= i < j < |notes| ==> Rank(notes[i]) < Rank(notes[j])
  }

  /** The notes of ranks below `r`, each warranted one exactly once, in rank order. */
  ghost predicate NotesBelow(notes: seq<Note>, x: Indication, s: Settings, r: nat)
  {
    && StrictlyRanked(notes)
    && (forall i :: 0 <= i < |notes| ==> Rank(notes[i]) < r)
    && (forall n :: n in notes <==> Warranted(n, x, s) && Rank(n) < r)
  }

  /** The complete note list for an indication. */
  ghost predicate NotesFor(notes: seq<Note>, x: Indication, s: Settings)
  {
    StrictlyRanked(notes) && forall n :: n in notes <==> Warranted(n, x, s)
  }

  /**
   * The successive appends of mexc_poll.py:45-61: one EMA20 note, one VWAP
   * note, the RSI notes, the high sweep, at most one band note per side
   * (the 2-sigma band first) and the low sweep.
   */
  method AssembleNotes(x: Indication, s: Settings) returns (notes: seq<Note>)
    ensures notes == NotesThrough(7, x, s)
  {
    notes := [];
    if x.close > x.ema20 { notes := notes + [CloseAboveEma20]; }
    else { notes := notes + [CloseBelowEma20]; }
    if x.close > x.vwap { notes := notes + [AboveVwap]; }
    else { notes := notes + [BelowVwap]; }
    assert notes == NotesThrough(1, x, s);
    notes := AppendWhen(notes, x.rsi <= s.rsiOversold, RsiOversold);
    assert notes == NotesThrough(2, x, s);
    notes := AppendWhen(notes, x.rsi >= s.rsiOverbought, RsiOverbought);
    assert notes == NotesThrough(3, x, s);
    notes := AppendWhen(notes, x.highSweep, HighSweep);
    assert notes == NotesThrough(4, x, s);
    notes := AppendBandNotes(notes, x, s);
    assert notes == NotesThrough(6, x, s);
    notes := AppendWhen(notes, x.lowSweep, LowSweep);
  }

  /** `if c: note.append(n)`. */
  method AppendWhen(notes: seq<Note>, c: bool, n: Note) returns (notes': seq<Note>)
    ensures notes' == notes + (if c then [n] else [])
  {
    notes' := notes;
    if c { notes' := notes' + [n]; }
  }

  /**
   * The band block of mexc_poll.py:54-59: when band alerts are enabled and
   * the bands are defined, at most one note per side, the 2-sigma band first.
   */
  method AppendBandNotes(notes: seq<Note>, x: Indication, s: Settings) returns (notes': seq<Note>)
    ensures notes' == notes + RankNotes(5, x, s) + RankNotes(6, x, s)
  {
    notes' := notes;
    if s.enableVwapBandAlerts && x.bands.Some? {
      var b := x.bands.value;
      if x.close >= b.plus2 { notes' := notes' + [AbovePlus2Sigma]; }
      else if x.close >= b.plus1 { notes' := notes' + [AbovePlus1Sigma]; }
      if x.close <= b.minus2 { notes' := notes' + [BelowMinus2Sigma]; }
      else if x.close <= b.minus1 { notes' := notes' + [BelowMinus1Sigma]; }
    }
  }

  /** The warranted notes of one rank, as the code appends them. */
  function RankNotes(r: nat, x: Indication, s: Settings): seq<Note>
  {
    if r == 0 then [if x.close > x.ema20 then CloseAboveEma20 else CloseBelowEma20]
    else if r == 1 then [if x.close > x.vwap then AboveVwap else BelowVwap]
    else if r == 2 then (if x.rsi <= s.rsiOversold then [RsiOversold] else [])
    else if r == 3 then (if x.rsi >= s.rsiOverbought then [RsiOverbought] else [])
    else if r == 4 then (if x.highSweep then [HighSweep] else [])
    else if r == 5 then
      (if !(s.enableVwapBandAlerts && x.bands.Some?) then []
       else if x.close >= x.bands.value.plus2 then [AbovePlus2Sigma]
       else if x.close >= x.bands.value.plus1 then [AbovePlus1Sigma]
       else [])
    else if r == 6 then
      (if !(s.enableVwapBandAlerts && x.bands.Some?) then []
       else if x.close <= x.bands.value.minus2 then [BelowMinus2Sigma]
       else if x.close <= x.bands.value.minus1 then [BelowMinus1Sigma]
       else [])
    else if r == 7 then (if x.lowSweep then [LowSweep] else [])
    else []
  }

  /** `RankNotes` holds exactly the warranted notes of its rank. */
  lemma RankNotesWarranted(r: nat, x: Indication, s: Settings)
    ensures |RankNotes(r, x, s)| <= 1
    ensures forall n :: n in RankNotes(r, x, s) <==> Rank(n) == r && Warranted(n, x, s)
  {
  }

  /** The notes of ranks `0 .. r`, in rank order. */
  function NotesThrough(r: nat, x: Indication, s: Settings): seq<Note>
  {
    if r == 0 then RankNotes(0, x, s) else NotesThrough(r - 1, x, s) + RankNotes(r, x, s)
  }

  lemma {:induction false} NotesThroughBelow(r: nat, x: Indication, s: Settings)
    ensures NotesBelow(NotesThrough(r, x, s), x, s, r + 1)
    ensures r == 7 ==> NotesFor(NotesThrough(r, x, s), x, s)
  {
    if r == 0 {
      AppendRank([], NotesThrough(0, x, s), x, s, 0);
    } else {
      NotesThroughBelow(r - 1, x, s);
      AppendRank(NotesThrough(r - 1, x, s), NotesThrough(r, x, s), x, s, r);
    }
  }

  /** The appends of all eight ranks give the complete note list. */
  lemma NotesThroughComplete(x: Indication, s: Settings)
    ensures NotesFor(NotesThrough(7, x, s), x, s)
  {
    NotesThroughBelow(7, x, s);
  }

  /**
   * Appending the warranted notes of rank `r` to the list of the ranks
   * below `r` gives the list of the ranks up to `r`.
   */
  lemma AppendRank(notes: seq<Note>, after: seq<Note>, x: Indication, s: Settings, r: nat)
    requires r == 0 ==> notes == []
    requires r > 0 ==> NotesBelow(notes, x, s, r)
    requires after == notes + RankNotes(r, x, s)
    ensures NotesBelow(after, x, s, r + 1)
    ensures r == 7 ==> NotesFor(after, x, s)
  {
    var add := RankNotes(r, x, s);
    RankNotesWarranted(r, x, s);
    assert forall n :: n in after <==> n in notes || n in add;
    assert forall i :: 0 <= i < |after| ==> Rank(after[i]) < r + 1 by {
      forall i | 0 <= i < |after| ensures Rank(after[i]) < r + 1 {
        if i >= |notes| { assert after[i] in add; }
      }
    }
    assert StrictlyRanked(after) by {
      forall i, j | 0 <= i < j < |after| ensures Rank(after[i]) < Rank(after[j]) {
        if j >= |notes| {
          assert after[j] in add;
          assert i < |notes|;
        }
      }
    }
    if r == 7 {
      forall n ensures n in after <==> Warranted(n, x, s) {
        assert Rank(n) <= 7;
      }
    }
  }

  /**
   * Every note list for an indication starts with exactly one EMA20 note
   * and exactly one VWAP note; ties read as "close < EMA20" and "below VWAP".
   */
  lemma NotesShape(notes: seq<Note>, x: Indication, s: Settings)
    requires NotesFor(notes, x, s)
    ensures |notes| >= 2
    ensures notes[0] == if x.close > x.ema20 then CloseAboveEma20 else CloseBelowEma20
    ensures notes[1] == if x.close > x.vwap then AboveVwap else BelowVwap
    ensures forall i :: 2 <= i < |notes| ==> Rank(notes[i]) >= 2
  {
    var e := if x.close > x.ema20 then CloseAboveEma20 else CloseBelowEma20;
    var w := if x.close > x.vwap then AboveVwap else BelowVwap;
    assert Warranted(e, x, s) && Warranted(w, x, s);
    var j :| 0 <= j < |notes| && notes[j] == e;
    var k :| 0 <= k < |notes| && notes[k] == w;
    assert Rank(notes[j]) == 0 && Rank(notes[k]) == 1;
    assert forall i :: 0 < i < |notes| ==> Rank(notes[0]) < Rank(notes[i]);
    assert j == 0;
    assert k >= 1;
    assert forall i :: 1 < i < |notes| ==> Rank(notes[1]) < Rank(notes[i]);
    assert k == 1;
  }

  /** At most one band note per side, and none unless band alerts are on and sigma is defined. */
  lemma BandNotes(notes: seq<Note>, x: Indication, s: Settings)
    requires NotesFor(notes, x, s)
    ensures !(AbovePlus2Sigma in notes && AbovePlus1Sigma in notes)
    ensures !(BelowMinus2Sigma in notes && BelowMinus1Sigma in notes)
    ensures (!s.enableVwapBandAlerts || x.bands.None?) ==>
      forall i :: 0 <= i < |notes| ==> Rank(notes[i]) != 5 && Rank(notes[i]) != 6
  {
    if !s.enableVwapBandAlerts || x.bands.None? {
      forall i | 0 <= i < |notes|
        ensures Rank(notes[i]) != 5 && Rank(notes[i]) != 6
      {
        assert Warranted(notes[i], x, s);
      }
    }
  }

  /** The tail of a strictly ranked list is the list without its head. */
  lemma RankedTail(a: seq<Note>)
    requires StrictlyRanked(a) && |a| > 0
    ensures StrictlyRanked(a[1..])
    ensures forall n :: n in a[1..] <==> n in a && n != a[0]
  {
    assert a == [a[0]] + a[1..];
    assert a[0] !in a[1..] by {
      assert forall i :: 0 <= i < |a| - 1 ==> Rank(a[1..][i]) > Rank(a[0]);
    }
    forall i, j | 0 <= i < j < |a| - 1
      ensures Rank(a[1..][i]) < Rank(a[1..][j])
    {
      assert a[1..][i] == a[i + 1] && a[1..][j] == a[j + 1];
    }
  }

  /** Two strictly ranked lists with the same members start alike. */
  lemma RankedHead(a: seq<Note>, b: seq<Note>)
    requires StrictlyRanked(a) && StrictlyRanked(b)
    requires forall n :: n in a <==> n in b
    requires |a| > 0
    ensures |b| > 0 && a[0] == b[0]
  {
    assert a[0] in b;
    var j :| 0 <= j < |b| && b[j] == a[0];
    assert b[0] in a;
    var k :| 0 <= k < |a| && a[k] == b[0];
    assert Rank(a[0]) <= Rank(a[k]) == Rank(b[0]) <= Rank(b[j]) == Rank(a[0]);
    assert k == 0;
  }

  /** Two strictly ranked note lists with the same members are equal. */
  lemma {:induction false} RankedUnique(a: seq<Note>, b: seq<Note>)
    requires StrictlyRanked(a) && StrictlyRanked(b)
    requires forall n :: n in a <==> n in b
    ensures a == b
  {
    if |a| == 0 {
      if |b| > 0 {
        RankedHead(b, a);
        assert false;
      }
    } else {
      RankedHead(a, b);
      RankedTail(a);
      RankedTail(b);
      RankedUnique(a[1..], b[1..]);
      assert a == [a[0]] + a[1..] && b == [b[0]] + b[1..];
    }
  }

  /** The note list of an indication is determined by it. */
  lemma NotesUnique(a: seq<Note>, b: seq<Note>, x: Indication, s: Settings)
    requires NotesFor(a, x, s) && NotesFor(b, x, s)
    ensures a == b
  {
    RankedUnique(a, b);
  }

  // ---------------------------------------------------------------------
  // Message body and dedup key (mexc_poll.py:63-64)
  // ---------------------------------------------------------------------

  /** Number formatting, outside the model: fixed decimals (`:.2f`) and `str()`. */
  datatype NumberFormat = NumberFormat(fixed: (real, nat) -> string, str: real -> string)

  /** The text a note is appended as (mexc_poll.py:46-61). */
  function NoteText(n: Note, x: Indication, s: Settings, fmt: NumberFormat): string
  {
    match n
    case CloseAboveEma20 => "close > EMA20"
    case CloseBelowEma20 => "close < EMA20"
    case AboveVwap => "above VWAP"
    case BelowVwap => "below VWAP"
    case RsiOversold => "RSI " + fmt.fixed(x.rsi, 1) + " <= " + fmt.str(s.rsiOversold)
    case RsiOverbought => "RSI " + fmt.fixed(x.rsi, 1) + " >= " + fmt.str(s.rsiOverbought)
    case HighSweep => "High Sweep"
    case AbovePlus2Sigma => "\U{2265} +2\U{03C3} above VWAP"
    case AbovePlus1Sigma => "\U{2265} +1\U{03C3} above VWAP"
    case BelowMinus2Sigma => "\U{2264} -2\U{03C3} below VWAP"
    case BelowMinus1Sigma => "\U{2264} -1\U{03C3} below VWAP"
    case LowSweep => "Low Sweep"
  }

  /** `sep.join(parts)`: the parts in order, separated by `sep`. */
  function Join(parts: seq<string>, sep: string): (r: string)
    ensures |parts| == 0 ==> r == ""
    ensures |parts| == 1 ==> r == parts[0]
    ensures |parts| > 0 ==> |r| >= |parts[0]| && r[..|parts[0]|] == parts[0]
    ensures |parts| > 0 ==> |r| >= |parts[|parts| - 1]| && r[|r| - |parts[|parts| - 1]|..] == parts[|parts| - 1]
    ensures |parts| > 1 ==> |r| >= |parts[0]| + |sep| && r[|parts[0]|..|parts[0]| + |sep|] == sep
  {
    if |parts| == 0 then "" else if |parts| == 1 then parts[0] else parts[0] + sep + Join(parts[1..], sep)
  }

  /** Moving a separator-joined tail's parentheses to the left. */
  lemma Regroup(p: string, sep: string, x: string, y: string)
    ensures p + sep + (x + sep + y) == (p + sep + x) + sep + y
  {
  }

  /**
   * Joining splits at any boundary: with `Join([]) == ""` and
   * `Join([p]) == p` this fixes the join of every list, every part kept
   * in order with one `sep` between neighbours.
   */
  lemma {:induction false} JoinAppend(a: seq<string>, b: seq<string>, sep: string)
    requires |a| > 0 && |b| > 0
    ensures Join(a + b, sep) == Join(a, sep) + sep + Join(b, sep)
  {
    var ab := a + b;
    assert ab[0] == a[0];
    if |a| == 1 {
      assert ab[1..] == b;
      assert Join(ab, sep) == a[0] + sep + Join(b, sep);
    } else {
      assert ab[1..] == a[1..] + b;
      JoinAppend(a[1..], b, sep);
      assert Join(ab, sep) == a[0] + sep + Join(a[1..] + b, sep);
      Regroup(a[0], sep, Join(a[1..], sep), Join(b, sep));
    }
  }

  /** The note texts joined by `", "`; the first note's text leads. */
  function NotesText(x: Indication, s: Settings, notes: seq<Note>, fmt: NumberFormat): (t: string)
    ensures |notes| == 0 ==> t == ""
    ensures |notes| == 1 ==> t == NoteText(notes[0], x, s, fmt)
    ensures |notes| > 0 ==>
      |t| >= |NoteText(notes[0], x, s, fmt)| && t[..|NoteText(notes[0], x, s, fmt)|] == NoteText(notes[0], x, s, fmt)
  {
    Join(NoteTexts(x, s, notes, fmt), ", ")
  }

  /** The text of each note, in order. */
  function NoteTexts(x: Indication, s: Settings, notes: seq<Note>, fmt: NumberFormat): (ts: seq<string>)
    ensures |ts| == |notes| && forall i :: 0 <= i < |notes| ==> ts[i] == NoteText(notes[i], x, s, fmt)
  {
    seq(|notes|, i requires 0 <= i < |notes| => NoteText(notes[i], x, s, fmt))
  }

  /** The notes of `a + b` read as those of `a`, `", "`, then those of `b`. */
  lemma NotesTextAppend(x: Indication, s: Settings, a: seq<Note>, b: seq<Note>, fmt: NumberFormat)
    requires |a| > 0 && |b| > 0
    ensures NotesText(x, s, a + b, fmt) == NotesText(x, s, a, fmt) + ", " + NotesText(x, s, b, fmt)
  {
    assert NoteTexts(x, s, a + b, fmt) == NoteTexts(x, s, a, fmt) + NoteTexts(x, s, b, fmt);
    JoinAppend(NoteTexts(x, s, a, fmt), NoteTexts(x, s, b, fmt), ", ");
  }

  /** What follows the symbol in the body, before the close. */
  const CloseLabel: string := " close="
  /** What separates the close from the notes. */
  const NotesSeparator: string := " | "

  /** `r` is `a`, `b`, `c`, `d` and `e` end to end: each part reads back at its own offset. */
  predicate Laid(r: string, a: string, b: string, c: string, d: string, e: string)
  {
    var i, j, k, l := |a|, |a| + |b|, |a| + |b| + |c|, |a| + |b| + |c| + |d|;
    && |r| == l + |e|
    && r[..i] == a && r[i..j] == b && r[j..k] == c && r[k..l] == d && r[l..] == e
  }

  /** Concatenation lays its parts out end to end. */
  lemma Layout(a: string, b: string, c: string, d: string, e: string)
    ensures Laid(a + b + c + d + e, a, b, c, d, e)
  {
    var r := a + b + c + d + e;
    var i, j, k, l := |a|, |a| + |b|, |a| + |b| + |c|, |a| + |b| + |c| + |d|;
    assert r[..i] == a;
    assert r[i..j] == b;
    assert r[j..k] == c;
    assert r[k..l] == d;
    assert r[l..] == e;
  }

  /**
   * The alert body: the symbol, ` close=` and the close to two decimals,
   * then ` | ` and the note texts joined by `", "`.
   */
  function Body(symbol: string, x: Indication, s: Settings, notes: seq<Note>, fmt: NumberFormat): (r: string)
    ensures Laid(r, symbol, CloseLabel, fmt.fixed(x.close, 2), NotesSeparator, NotesText(x, s, notes, fmt))
  {
    var t := NotesText(x, s, notes, fmt);
    Layout(symbol, CloseLabel, fmt.fixed(x.close, 2), NotesSeparator, t);
    symbol + CloseLabel + fmt.fixed(x.close, 2) + NotesSeparator + t
  }

  /** `s.replace(c, "")`. */
  function RemoveChar(s: string, c: char): (r: string)
    ensures c !in r && |r| <= |s|
    ensures c !in s ==> r == s
  {
    if |s| == 0 then ""
    else (if s[0] == c then "" else [s[0]]) + RemoveChar(s[1..], c)
  }

  /** Removing `c` keeps every other character, as often as it occurred. */
  lemma {:induction false} RemoveCharKeeps(s: string, c: char)
    ensures forall d :: d != c ==> multiset(RemoveChar(s, c))[d] == multiset(s)[d]
  {
    if |s| > 0 {
      RemoveCharKeeps(s[1..], c);
      assert s == [s[0]] + s[1..];
    }
  }

  /** The dedup key of a symbol: `mexc-` and the symbol without its slashes. */
  function DedupKey(symbol: string): (k: string)
    ensures |k| >= 5 && k[..5] == "mexc-" && '/' !in k[5..]
    ensures k[5..] == RemoveChar(symbol, '/')
  {
    var rest := RemoveChar(symbol, '/');
    assert ("mexc-" + rest)[5..] == rest;
    "mexc-" + rest
  }

  /** Apart from the prefix, the key holds exactly the symbol's other characters. */
  lemma DedupKeyKeeps(symbol: string)
    ensures forall d :: d != '/' ==> multiset(DedupKey(symbol)[5..])[d] == multiset(symbol)[d]
  {
    RemoveCharKeeps(symbol, '/');
  }

  /** Concatenation of strings is associative. */
  lemma Associate(x: string, y: string, z: string)
    ensures x + (y + z) == (x + y) + z
  {
  }

  /** Removing a character distributes over concatenation. */
  lemma {:induction false} RemoveCharAppend(a: string, b: string, c: char)
    ensures RemoveChar(a + b, c) == RemoveChar(a, c) + RemoveChar(b, c)
  {
    if |a| > 0 {
      var ab := a + b;
      var head := if a[0] == c then "" else [a[0]];
      assert ab[0] == a[0];
      assert ab[1..] == a[1..] + b;
      RemoveCharAppend(a[1..], b, c);
      assert RemoveChar(ab, c) == head + RemoveChar(a[1..] + b, c);
      assert RemoveChar(a, c) == head + RemoveChar(a[1..], c);
      Associate(head, RemoveChar(a[1..], c), RemoveChar(b, c));
    } else {
      assert a + b == b;
    }
  }

  /** A pair symbol `BASE/QUOTE` has the key `mexc-BASEQUOTE`. */
  lemma PairKey(base: string, quote: string)
    requires '/' !in base && '/' !in quote
    ensures DedupKey(base + "/" + quote) == "mexc-" + (base + quote)
  {
    RemoveCharAppend(base + "/", quote, '/');
    RemoveCharAppend(base, "/", '/');
    assert RemoveChar("/", '/') == [];
    calc {
      RemoveChar(base + "/" + quote, '/');
      RemoveChar(base + "/", '/') + RemoveChar(quote, '/');
      RemoveChar(base, '/') + RemoveChar("/", '/') + quote;
      { assert base + [] == base; }
      base + quote;
    }
  }

  // ---------------------------------------------------------------------
  // One poll of a symbol (mexc_poll.py:26-64)
  // ---------------------------------------------------------------------

  /** Fewer bars than this and the poll sends nothing. */
  const MinBars: nat := 50
  /** The EMA span of the trend note. */
  const EmaSpan: int := 20
  /** The `1e-9` guard of the indicators. */
  const Epsilon: real := 0.000000001

  /** Settings with which the indicator calls do not raise. */
  predicate Runnable(s: Settings)
  {
    s.rsiPeriod >= 1 && s.sweepLookback >= 0 && s.vwapBandWindow >= 0
  }

  datatype Alert = Alert(title: string, key: string, ind: Indication, notes: seq<Note>)

  datatype PollOutcome =
    | TooFewBars      // fewer than 50 bars: sleep and poll again
    | Failed          // an indicator call raised; the loop prints the error
    | Evaluated(alert: Alert)

  /**
   * The indicator values of the last bar: RSI, EMA20, the VWAP with resets
   * from the configured mode, the two sweep flags and, when the rolling
   * sigma is defined, the deviation bands around that VWAP.
   */
  ghost function LastIndication(bars: seq<Candle>, s: Settings, sigma: Option<real>): (x: Indication)
    requires |bars| >= 2 && Runnable(s) && NonNegVolumes(bars)
    ensures x.close == bars[|bars| - 1].close
    ensures 0.0 <= x.rsi < 100.0
    ensures x.highSweep ==> x.close < bars[|bars| - 1].high
    ensures x.lowSweep ==> x.close > bars[|bars| - 1].low
    ensures x.bands.Some? <==> sigma.Some?
  {
    var last := |bars| - 1;
    var v := VwapSession(bars, ResetFlags(Timestamps(bars), s.vwapReset), Epsilon)[last];
    Indication(
      bars[last].close,
      Rsi(Closes(bars), s.rsiPeriod, Epsilon)[last].value,
      Ema(Closes(bars), EmaSpan)[last],
      v,
      HighSweepAt(bars, s.sweepLookback, last),
      LowSweepAt(bars, s.sweepLookback, last),
      if sigma.Some? then Some(DeviationBands(v, sigma.value)) else None)
  }

  /** What one poll of `symbol` over `bars` yields. */
  ghost predicate Evaluation(out: PollOutcome, bars: seq<Candle>, symbol: string, s: Settings, sigma: Option<real>)
    requires NonNegVolumes(bars)
  {
    && (out.TooFewBars? <==> |bars| < MinBars)
    && (out.Failed? <==> |bars| >= MinBars && !Runnable(s))
    && (out.Evaluated? ==>
      && |bars| >= MinBars && Runnable(s)
      && out.alert.title == "MEXC Scan"
      && out.alert.key == DedupKey(symbol)
      && out.alert.ind == LastIndication(bars, s, sigma)
      && NotesFor(out.alert.notes, out.alert.ind, s))
  }

  /** The reset-aware VWAP of the last bar, with the reset flags of `mode`. */
  method SessionVwapOfLast(bars: seq<Candle>, mode: string) returns (v: real)
    requires |bars| >= 1 && NonNegVolumes(bars)
    ensures v == VwapSession(bars, ResetFlags(Timestamps(bars), mode), Epsilon)[|bars| - 1]
  {
    var resetIdx := ResetIndexForVwap(Timestamps(bars), mode);
    var vs := Vwap(bars, Some(resetIdx), Epsilon);
    v := vs[|bars| - 1];
  }

  /**
   * The indicator calls of one poll (mexc_poll.py:37-43), each evaluated on
   * the whole history and read at the last bar.
   */
  method IndicateLast(bars: seq<Candle>, s: Settings, sigma: Option<real>) returns (x: Indication)
    requires |bars| >= 2 && Runnable(s) && NonNegVolumes(bars)
    ensures x == LastIndication(bars, s, sigma)
  {
    var last := |bars| - 1;
    var closes := Closes(bars);
    var rs := Rsi(closes, s.rsiPeriod, Epsilon)[last].value;
    var ema20 := Ema(closes, EmaSpan)[last];
    var v := SessionVwapOfLast(bars, s.vwapReset);
    var sweeps := Sweeps(bars, s.sweepLookback);
    var highSweep, lowSweep := sweeps.0[last], sweeps.1[last];
    var bands := if sigma.Some? then Some(DeviationBands(v, sigma.value)) else None;
    x := Indication(bars[last].close, rs, ema20, v, highSweep, lowSweep, bands);
  }

  /**
   * The body of the poll loop for one fetch: skip short histories, compute
   * the last bar's RSI, EMA20, reset-aware VWAP, sweep flags and bands, and
   * assemble the notes and the key. `sigma` stands for the rolling
   * standard deviation at the last bar and is supplied by the caller
   * unchecked; the code yields `None` while fewer than `vwapBandWindow`
   * bars exist, and always when that window is 0 or 1 (`std()` divides by
   * n - 1), and otherwise a value >= 0.
   */
  method PollOnce(bars: seq<Candle>, symbol: string, s: Settings, sigma: Option<real>) returns (out: PollOutcome)
    requires NonNegVolumes(bars)
    ensures Evaluation(out, bars, symbol, s, sigma)
  {
    if |bars| < MinBars {
      return TooFewBars;
    }
    if !Runnable(s) {
      return Failed;
    }
    var x := IndicateLast(bars, s, sigma);
    var notes := AssembleNotes(x, s);
    NotesThroughComplete(x, s);
    out := Evaluated(Alert("MEXC Scan", DedupKey(symbol), x, notes));
  }

  /**
   * One poll followed by its one send: every evaluated poll hands exactly
   * one message to the router, with no further trigger condition.
   */
  method PollAndSend(router: Router.AlertRouter, bars: seq<Candle>, symbol: string, s: Settings,
                     sigma: Option<real>, fmt: NumberFormat, now: real) returns (out: PollOutcome)
    requires NonNegVolumes(bars)
    modifies router, router.cooldown
    ensures Evaluation(out, bars, symbol, s, sigma)
    ensures !out.Evaluated? ==>
      router.sent == old(router.sent) && router.console == old(router.console)
      && router.cooldown.lastSent == old(router.cooldown.lastSent)
    ensures out.Evaluated? ==>
      var body := Body(symbol, out.alert.ind, s, out.alert.notes, fmt);
      var key := out.alert.key;
      if router.Dry() then
        && router.console == old(router.console) + ["[DRY] " + out.alert.title + ": " + body]
        && router.sent == old(router.sent)
        && router.cooldown.lastSent == old(router.cooldown.lastSent)
      else if Router.Admits(old(router.cooldown.lastSent), router.cooldown.cooldown, key, now) then
        && router.sent == old(router.sent) + [Router.Message(router.chatId, Router.MessageText(out.alert.title, body), "HTML")]
        && router.console == old(router.console)
        && router.cooldown.lastSent == old(router.cooldown.lastSent)[key := now]
      else
        && router.sent == old(router.sent)
        && router.console == old(router.console) + ["[SKIP] cooldown active for " + key]
        && router.cooldown.lastSent == old(router.cooldown.lastSent)
  {
    out := PollOnce(bars, symbol, s, sigma);
    if out.Evaluated? {
      var body := Body(symbol, out.alert.ind, s, out.alert.notes, fmt);
      router.Send(out.alert.title, body, out.alert.key, now);
    }
  }
}
