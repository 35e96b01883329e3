/** `MessageUtil`: rendering of remaining time and rewriting of colour codes. */
module MessageUtil {
  import opened Common
  import opened Text

  // ---------------------------------------------------------------------------
  // formatTime

  /** A positive number of seconds split into days, hours, minutes and seconds. */
  datatype TimeParts = TimeParts(days: nat, hours: nat, minutes: nat, secs: nat)

  function Split(seconds: int): (p: TimeParts)
    requires seconds > 0
    ensures p.days * 86400 + p.hours * 3600 + p.minutes * 60 + p.secs == seconds
    ensures p.hours < 24 && p.minutes < 60 && p.secs < 60
    ensures p.secs == seconds % 60
    ensures p.days == 0 <==> seconds < 86400
  {
    var days := seconds / 86400;
    var hours := (seconds % 86400) / 3600;
    var minutes := (seconds % 3600) / 60;
    var secs := seconds % 60;
    assert seconds % 3600 == (seconds % 86400) % 3600 by {
      var r := seconds % 86400;
      assert seconds == 3600 * (24 * days + r / 3600) + r % 3600;
    }
    assert secs == (seconds % 3600) % 60 by {
      var r := seconds % 3600;
      assert seconds == 60 * (60 * (seconds / 3600) + r / 60) + r % 60;
    }
    TimeParts(days, hours, minutes, secs)
  }

  /** One printed unit: an amount followed by its suffix letter. */
  datatype Unit = Unit(amount: nat, suffix: char)

  function Render(u: Unit): (r: string)
    ensures |r| >= 2 && IsDigit(r[0]) && r[|r| - 1] == u.suffix
  {
    NatToString(u.amount) + [u.suffix]
  }

  /** `[u]` when `present`, else nothing. */
  function Piece(present: bool, u: Unit): seq<Unit> {
    if present then [u] else []
  }

  /** The units printed for `p`: each non-zero unit, largest first, and the
      seconds only when there are no whole days. */
  function Units(p: TimeParts): seq<Unit> {
    Piece(p.days > 0, Unit(p.days, 'd')) +
    Piece(p.hours > 0, Unit(p.hours, 'h')) +
    Piece(p.minutes > 0, Unit(p.minutes, 'm')) +
    Piece(p.secs > 0 && p.days == 0, Unit(p.secs, 's'))
  }

  /** The rendered units separated by `", "`. */
  function Join(us: seq<Unit>): string
    decreases |us|
  {
    if us == [] then ""
    else if |us| == 1 then Render(us[0])
    else Render(us[0]) + ", " + Join(us[1..])
  }

  lemma {:induction false} JoinEnds(us: seq<Unit>)
    requires us != []
    ensures var r := Join(us); |r| >= 2 && IsDigit(r[0]) && r[|r| - 1] == us[|us| - 1].suffix
    decreases |us|
  {
    if |us| > 1 {
      JoinEnds(us[1..]);
    }
  }

  lemma JoinShort(us: seq<Unit>)
    ensures |us| == 2 ==> Join(us) == Render(us[0]) + ", " + Render(us[1])
    ensures |us| == 3 ==> Join(us) == Render(us[0]) + ", " + Render(us[1]) + ", " + Render(us[2])
  {
    if |us| == 3 {
      assert us[1..][1..] == us[2..];
    }
  }

  /** `formatTime(seconds)` with a separator between every two printed units. */
  function FormatTime(seconds: int): (r: string)
  {
    if seconds <= 0 then "0s" else Join(Units(Split(seconds)))
  }

  /** The output is never empty, starts with a digit and ends with a unit letter,
      so it neither starts nor ends with `", "`. */
  lemma FormatTimeShape(seconds: int)
    ensures var r := FormatTime(seconds);
      |r| >= 2 && IsDigit(r[0]) && r[|r| - 1] in {'d', 'h', 'm', 's'}
  {
    if seconds > 0 {
      var us := Units(Split(seconds));
      assert us != [];
      JoinEnds(us);
    }
  }

  /** The seconds `n` units of suffix `c` stand for; `None` for a letter that
      is no unit. */
  function UnitSeconds(n: int, c: char): Option<int> {
    if c == 'd' then Some(n * 86400)
    else if c == 'h' then Some(n * 3600)
    else if c == 'm' then Some(n * 60)
    else if c == 's' then Some(n)
    else None
  }

  predicate IsUnitLetter(c: char) {
    c == 'd' || c == 'h' || c == 'm' || c == 's'
  }

  /** The length of the run of digits at the start of `r`. */
  function DigitRun(r: string): (k: nat)
    ensures k <= |r|
    ensures k < |r| ==> !IsDigit(r[k])
    decreases |r|
  {
    if r == [] || !IsDigit(r[0]) then 0 else 1 + DigitRun(r[1..])
  }

  /** Reads a rendered time back as seconds: units `<digits><d|h|m|s>`
      separated by `", "`. */
  function ParseTime(r: string): Option<int>
    decreases |r|, 1
  {
    var k := DigitRun(r);
    if k == 0 || k == |r| then None
    else
      match UnitSeconds(ParseDecimal(r[..k]), r[k])
      case None => None
      case Some(v) => ParseRest(v, r[k + 1..])
  }

  /** What follows a unit worth `v` seconds: the end, or `", "` and more units. */
  function ParseRest(v: int, rest: string): Option<int>
    decreases |rest|, 0
  {
    if rest == [] then Some(v)
    else if |rest| >= 2 && rest[..2] == ", " then
      match ParseTime(rest[2..])
      case Some(t) => Some(v + t)
      case None => None
    else None
  }

  /** The seconds a list of units stands for. */
  function Total(us: seq<Unit>): int {
    if us == [] then 0 else UnitSeconds(us[0].amount, us[0].suffix).GetOr(0) + Total(us[1..])
  }

  lemma {:induction false} DigitRunOfDigits(d: string, rest: string)
    requires forall i :: 0 <= i < |d| ==> IsDigit(d[i])
    ensures DigitRun(d + rest) == |d| + DigitRun(rest)
    decreases |d|
  {
    if d != [] {
      assert (d + rest)[1..] == d[1..] + rest;
      DigitRunOfDigits(d[1..], rest);
    } else {
      assert d + rest == rest;
    }
  }

  lemma DigitRunOfRender(u: Unit, tail: string)
    requires IsUnitLetter(u.suffix)
    ensures DigitRun(Render(u) + tail) == |NatToString(u.amount)|
  {
    var d := NatToString(u.amount);
    assert Render(u) + tail == d + ([u.suffix] + tail);
    DigitRunOfDigits(d, [u.suffix] + tail);
  }

  /** One unit followed by `tail` is read as that unit's seconds and then
      whatever `tail` holds. */
  lemma ParseTimeHead(u: Unit, tail: string)
    requires IsUnitLetter(u.suffix)
    ensures ParseTime(Render(u) + tail) == ParseRest(Total([u]), tail)
  {
    var d := NatToString(u.amount);
    var r := Render(u) + tail;
    DigitRunOfRender(u, tail);
    assert r[..|d|] == d;
    NatToStringRoundTrip(u.amount);
    assert r[|d|] == u.suffix;
    assert r[|d| + 1..] == tail;
  }

  lemma ParseRestSeparator(v: int, rest: string)
    ensures ParseRest(v, ", " + rest) ==
      match ParseTime(rest)
      case Some(t) => Some(v + t)
      case None => None
  {
    assert (", " + rest)[..2] == ", ";
    assert (", " + rest)[2..] == rest;
  }

  lemma JoinCons(us: seq<Unit>)
    requires |us| > 1
    ensures Join(us) == Render(us[0]) + (", " + Join(us[1..]))
  {
    assert Render(us[0]) + ", " + Join(us[1..]) == Render(us[0]) + (", " + Join(us[1..]));
  }

  lemma TotalCons(us: seq<Unit>)
    requires us != []
    ensures Total(us) == Total([us[0]]) + Total(us[1..])
  {
  }

  /** The two laws by which a reader of times takes joined units back: a
      single unit reads as its seconds, and a unit followed by `", "` and
      something readable reads as the sum. */
  ghost predicate ReadsUnits(read: string -> Option<int>) {
    (forall u: Unit {:trigger read(Render(u))} :: IsUnitLetter(u.suffix) ==> read(Render(u)) == Some(Total([u]))) &&
    (forall u: Unit, s: string {:trigger read(Render(u) + (", " + s))} :: IsUnitLetter(u.suffix) && read(s).Some? ==>
       read(Render(u) + (", " + s)) == Some(Total([u]) + read(s).value))
  }

  /** A single unit reads as its seconds. */
  lemma ParseOneUnit(u: Unit)
    requires IsUnitLetter(u.suffix)
    ensures ParseTime(Render(u)) == Some(Total([u]))
  {
    ParseTimeHead(u, "");
    assert Render(u) + "" == Render(u);
  }

  /** A unit followed by `", "` and a readable rest reads as the sum. */
  lemma ParseUnitThen(u: Unit, s: string)
    requires IsUnitLetter(u.suffix) && ParseTime(s).Some?
    ensures ParseTime(Render(u) + (", " + s)) == Some(Total([u]) + ParseTime(s).value)
  {
    ParseTimeHead(u, ", " + s);
    ParseRestSeparator(Total([u]), s);
  }

  /** `ParseTime` obeys both laws. */
  lemma ParseTimeReadsUnits()
    ensures ReadsUnits(ParseTime)
  {
    var read: string -> Option<int> := ParseTime;
    forall u: Unit {:trigger read(Render(u))} | IsUnitLetter(u.suffix)
      ensures read(Render(u)) == Some(Total([u]))
    {
      ParseOneUnit(u);
    }
    forall u: Unit, s: string {:trigger read(Render(u) + (", " + s))} | IsUnitLetter(u.suffix) && read(s).Some?
      ensures read(Render(u) + (", " + s)) == Some(Total([u]) + read(s).value)
    {
      ParseUnitThen(u, s);
    }
    assert ReadsUnits(read);
  }

  /** Any reader obeying the laws takes units joined by `", "` back to the
      seconds they stand for. */
  lemma {:induction false} ReadJoin(read: string -> Option<int>, us: seq<Unit>)
    requires ReadsUnits(read)
    requires us != []
    requires forall i :: 0 <= i < |us| ==> IsUnitLetter(us[i].suffix)
    ensures read(Join(us)) == Some(Total(us))
    decreases |us|
  {
    if |us| == 1 {
      assert us == [us[0]];
    } else {
      ReadJoin(read, us[1..]);
      JoinCons(us);
      TotalCons(us);
    }
  }

  /** Units joined by `", "` are read back to the seconds they stand for. */
  lemma ParseJoin(us: seq<Unit>)
    requires us != []
    requires forall i :: 0 <= i < |us| ==> IsUnitLetter(us[i].suffix)
    ensures ParseTime(Join(us)) == Some(Total(us))
  {
    ParseTimeReadsUnits();
    ReadJoin(ParseTime, us);
  }

  lemma {:induction false} TotalConcat(a: seq<Unit>, b: seq<Unit>)
    ensures Total(a + b) == Total(a) + Total(b)
    decreases |a|
  {
    if a != [] {
      assert (a + b)[0] == a[0];
      assert (a + b)[1..] == a[1..] + b;
      TotalConcat(a[1..], b);
    } else {
      assert a + b == b;
    }
  }

  lemma TotalUnits(p: TimeParts)
    ensures Total(Units(p)) == p.days * 86400 + p.hours * 3600 + p.minutes * 60 + (if p.days == 0 then p.secs else 0)
  {
    var a := Piece(p.days > 0, Unit(p.days, 'd'));
    var b := Piece(p.hours > 0, Unit(p.hours, 'h'));
    var c := Piece(p.minutes > 0, Unit(p.minutes, 'm'));
    var d := Piece(p.secs > 0 && p.days == 0, Unit(p.secs, 's'));
    TotalConcat(a, b);
    TotalConcat(a + b, c);
    TotalConcat(a + b + c, d);
  }

  /** Every printed unit carries a unit letter, and a positive time prints
      at least one. */
  lemma UnitsShape(p: TimeParts)
    ensures forall i :: 0 <= i < |Units(p)| ==> IsUnitLetter(Units(p)[i].suffix)
    ensures p.days > 0 || p.hours > 0 || p.minutes > 0 || p.secs > 0 ==> Units(p) != []
  {
  }

  /** The printed units of a positive time stand for all of it, less the
      seconds once there are whole days. */
  lemma TotalSplit(seconds: int)
    requires seconds > 0
    ensures Total(Units(Split(seconds))) == if seconds >= 86400 then seconds - Split(seconds).secs else seconds
  {
    TotalUnits(Split(seconds));
  }

  /** A positive time renders as the join of its units, which reads back to
      their total. */
  lemma JoinUnitsRoundTrip(seconds: int)
    requires seconds > 0
    ensures ParseTime(Join(Units(Split(seconds)))) ==
      Some(if seconds >= 86400 then seconds - Split(seconds).secs else seconds)
  {
    var p := Split(seconds);
    UnitsShape(p);
    ParseJoin(Units(p));
    TotalSplit(seconds);
  }

  /** No time left renders as `0s`, which reads back as zero. */
  lemma ZeroRoundTrip()
    ensures ParseTime("0s") == Some(0)
  {
    ParseTimeHead(Unit(0, 's'), "");
    assert Render(Unit(0, 's')) + "" == "0s";
  }

  /** The rendering is read back to the number of seconds, except that the
      seconds are dropped once there are whole days. */
  lemma FormatTimeRoundTrip(seconds: int)
    ensures ParseTime(FormatTime(seconds)) ==
      Some(if seconds <= 0 then 0 else if seconds >= 86400 then seconds - seconds % 60 else seconds)
  {
    if seconds <= 0 {
      ZeroRoundTrip();
    } else {
      JoinUnitsRoundTrip(seconds);
    }
  }

  /** The condition under which the source's separator rules print no separator
      between hours and seconds: no days, some hours, no minutes, some seconds. */
  predicate Glued(seconds: int) {
    seconds > 0 && var p := Split(seconds); p.days == 0 && p.hours > 0 && p.minutes == 0 && p.secs > 0
  }

  lemma {:induction false} JoinSnoc(us: seq<Unit>, u: Unit)
    requires us != []
    ensures Join(us + [u]) == Join(us) + ", " + Render(u)
    decreases |us|
  {
    if |us| == 1 {
      assert (us + [u])[1..] == [u];
    } else {
      assert (us + [u])[1..] == us[1..] + [u];
      JoinSnoc(us[1..], u);
    }
  }

  /** Appending a unit after the units `emitted` so far, followed by a separator
      exactly when there are some, yields their join. */
  lemma AppendUnit(prefix: string, emitted: seq<Unit>, sep: bool, u: Unit)
    requires prefix == Join(emitted) + (if sep then ", " else "")
    requires sep <==> emitted != []
    ensures prefix + NatToString(u.amount) + [u.suffix] == Join(emitted + [u])
  {
    if emitted == [] {
      assert emitted + [u] == [u];
    } else {
      JoinSnoc(emitted, u);
    }
  }

  /** `formatTime` as the source prints it: each unit is followed by ", "
      exactly when the source's test for a following unit holds. The test after
      the hours looks only at the minutes, so with no days, some hours, no
      minutes and some seconds the hours and seconds run together. */
  function FormatTimeGlued(seconds: int): string {
    if seconds <= 0 then "0s" else Printed(Split(seconds))
  }

  /** The four pieces the source appends for the parts `p`. */
  function Printed(p: TimeParts): string {
    DaysPiece(p) + HoursPiece(p) + MinutesPiece(p) + SecondsPiece(p)
  }

  function DaysPiece(p: TimeParts): string {
    if p.days > 0 then NatToString(p.days) + ['d'] + (if p.hours > 0 || p.minutes > 0 then ", " else "") else ""
  }

  function HoursPiece(p: TimeParts): string {
    if p.hours > 0 then NatToString(p.hours) + ['h'] + (if p.minutes > 0 then ", " else "") else ""
  }

  function MinutesPiece(p: TimeParts): string {
    if p.minutes > 0 then NatToString(p.minutes) + ['m'] + (if p.secs > 0 && p.days == 0 then ", " else "") else ""
  }

  function SecondsPiece(p: TimeParts): string {
    if p.secs > 0 && p.days == 0 then NatToString(p.secs) + ['s'] else ""
  }

  /** The text as printed agrees with `FormatTime` except when `Glued`, where
      the hours and seconds are printed with no separator between them. */
  lemma FormatTimeGluedMeaning(seconds: int)
    ensures !Glued(seconds) ==> FormatTimeGlued(seconds) == FormatTime(seconds)
    ensures Glued(seconds) ==>
      FormatTimeGlued(seconds) == NatToString(Split(seconds).hours) + "h" + NatToString(Split(seconds).secs) + "s"
  {
    if seconds > 0 {
      PrintedMeaning(Split(seconds));
    }
  }

  /** The pieces the source appends are the joined units, except with no days,
      some hours, no minutes and some seconds. */
  lemma PrintedMeaning(p: TimeParts)
    ensures !(p.days == 0 && p.hours > 0 && p.minutes == 0 && p.secs > 0) ==> Printed(p) == Join(Units(p))
    ensures p.days == 0 && p.hours > 0 && p.minutes == 0 && p.secs > 0 ==>
      Printed(p) == NatToString(p.hours) + "h" + NatToString(p.secs) + "s"
  {
    MinutesPrinted(p);
    var emitted := Piece(p.days > 0, Unit(p.days, 'd')) + Piece(p.hours > 0, Unit(p.hours, 'h')) +
      Piece(p.minutes > 0, Unit(p.minutes, 'm'));
    var sep := p.minutes > 0 && p.secs > 0 && p.days == 0;
    if p.secs > 0 && p.days == 0 {
      if !(p.hours > 0 && p.minutes == 0) {
        AppendUnit(DaysPiece(p) + HoursPiece(p) + MinutesPiece(p), emitted, sep, Unit(p.secs, 's'));
      }
    } else {
      assert emitted + [] == emitted;
    }
  }

  /** After the days: the days unit, and a separator when hours or minutes follow. */
  lemma DaysPrinted(p: TimeParts)
    ensures DaysPiece(p) ==
      Join(Piece(p.days > 0, Unit(p.days, 'd'))) + (if p.days > 0 && (p.hours > 0 || p.minutes > 0) then ", " else "")
  {
    if p.days > 0 {
      AppendUnit("", [], false, Unit(p.days, 'd'));
    }
  }

  /** After the hours: the units so far, and a separator exactly when minutes
      follow some printed unit. */
  lemma HoursPrinted(p: TimeParts)
    ensures DaysPiece(p) + HoursPiece(p) ==
      Join(Piece(p.days > 0, Unit(p.days, 'd')) + Piece(p.hours > 0, Unit(p.hours, 'h'))) +
      (if p.minutes > 0 && (p.hours > 0 || p.days > 0) then ", " else "")
  {
    DaysPrinted(p);
    var emitted := Piece(p.days > 0, Unit(p.days, 'd'));
    if p.hours > 0 {
      AppendUnit(DaysPiece(p), emitted, p.days > 0 && (p.hours > 0 || p.minutes > 0), Unit(p.hours, 'h'));
    } else {
      assert emitted + [] == emitted;
    }
  }

  /** After the minutes: the units so far, and a separator exactly when seconds
      follow the minutes. */
  lemma MinutesPrinted(p: TimeParts)
    ensures DaysPiece(p) + HoursPiece(p) + MinutesPiece(p) ==
      Join(Piece(p.days > 0, Unit(p.days, 'd')) + Piece(p.hours > 0, Unit(p.hours, 'h')) +
        Piece(p.minutes > 0, Unit(p.minutes, 'm'))) +
      (if p.minutes > 0 && p.secs > 0 && p.days == 0 then ", " else "")
  {
    HoursPrinted(p);
    var emitted := Piece(p.days > 0, Unit(p.days, 'd')) + Piece(p.hours > 0, Unit(p.hours, 'h'));
    if p.minutes > 0 {
      AppendUnit(DaysPiece(p) + HoursPiece(p), emitted, p.hours > 0 || p.days > 0, Unit(p.minutes, 'm'));
    } else {
      assert emitted + [] == emitted;
    }
  }

  /** `formatTime` as the source builds it: appends to a buffer unit by unit,
      each followed by its separator, and prints what `FormatTimeGlued`
      specifies. */
  method FormatTimeAsWritten(seconds: int) returns (r: string)
    ensures r == FormatTimeGlued(seconds)
  {
    if seconds <= 0 {
      return "0s";
    }
    var p := Split(seconds);
    var days, hours, minutes, secs := p.days, p.hours, p.minutes, p.secs;
    r := AppendPart("", days > 0, days, 'd', hours > 0 || minutes > 0);
    r := AppendPart(r, hours > 0, hours, 'h', minutes > 0);
    r := AppendPart(r, minutes > 0, minutes, 'm', secs > 0 && days == 0);
    r := AppendPart(r, secs > 0 && days == 0, secs, 's', false);
    assert "" + DaysPiece(p) == DaysPiece(p);
  }

  /** One step of the buffer: when `shown`, the amount and its unit letter,
      then ", " when `sep`; otherwise nothing. */
  method AppendPart(r: string, shown: bool, amount: nat, suffix: char, sep: bool) returns (r': string)
    ensures r' == r + (if shown then NatToString(amount) + [suffix] + (if sep then ", " else "") else "")
  {
    r' := r;
    if shown {
      r' := r' + NatToString(amount) + [suffix];
      if sep {
        r' := r' + ", ";
      }
    }
  }

  /** As printed, 3605 seconds come out as "1h5s", which cannot be read back,
      while `FormatTime` renders them as "1h, 5s". */
  lemma GluedExample()
    ensures Glued(3605)
    ensures FormatTimeGlued(3605) == "1h5s"
    ensures ParseTime(FormatTimeGlued(3605)) == None
    ensures FormatTime(3605) == "1h, 5s"
  {
    FormatTimeGluedMeaning(3605);
    assert DigitRun("1h5s") == 1;
    assert "1h5s"[2..] == "5s";
    assert Split(3605) == TimeParts(0, 1, 0, 5);
    var us := [Unit(1, 'h'), Unit(5, 's')];
    assert Units(TimeParts(0, 1, 0, 5)) == us;
    JoinShort(us);
  }

  /** The renderings of the three warning thresholds. */
  lemma FormatTimeThresholds()
    ensures FormatTime(3600) == "1h"
    ensures FormatTime(600) == "10m"
    ensures FormatTime(60) == "1m"
  {
    assert Split(3600) == TimeParts(0, 1, 0, 0);
    assert Units(TimeParts(0, 1, 0, 0)) == [Unit(1, 'h')];
    assert Split(600) == TimeParts(0, 0, 10, 0);
    assert Units(TimeParts(0, 0, 10, 0)) == [Unit(10, 'm')];
    assert NatToString(10) == "10";
    assert Split(60) == TimeParts(0, 0, 1, 0);
    assert Units(TimeParts(0, 0, 1, 0)) == [Unit(1, 'm')];
  }

  /** One day, one hour, one minute and one second: the seconds are dropped. */
  lemma FormatTimeDayExample()
    ensures FormatTime(90061) == "1d, 1h, 1m"
  {
    assert Split(90061) == TimeParts(1, 1, 1, 1);
    var us := [Unit(1, 'd'), Unit(1, 'h'), Unit(1, 'm')];
    assert Units(TimeParts(1, 1, 1, 1)) == us;
    JoinShort(us);
  }

  // ---------------------------------------------------------------------------
  // Hex colours: `&#RRGGBB&`

  predicate IsHexDigit(c: char) {
    ('0' <= c <= '9') || ('a' <= c <= 'f') || ('A' <= c <= 'F')
  }

  /** `&#` six hexadecimal digits `&` starts at index `i` of `s`. */
  predicate HexCodeAt(s: string, i: int) {
    0 <= i && i + 9 <= |s| && s[i] == '&' && s[i + 1] == '#' && s[i + 8] == '&' &&
    forall k :: i + 2 <= k < i + 8 ==> IsHexDigit(s[k])
  }

  /** Every code found scanning left to right (matches do not overlap) is
      rewritten `<#RRGGBB>`; everything else is copied. */
  function ConvertHex(s: string): (r: string)
    ensures |r| == |s|
    decreases |s|
  {
    if HexCodeAt(s, 0) then "<#" + s[2..8] + ">" + ConvertHex(s[9..])
    else if s == [] then []
    else [s[0]] + ConvertHex(s[1..])
  }

  /** The conversion keeps every character except the two `&` of each code,
      which become `<` and `>`. */
  lemma {:induction false} ConvertHexOnlyAmpersands(s: string)
    ensures forall i :: 0 <= i < |s| && ConvertHex(s)[i] != s[i] ==>
      s[i] == '&' && (ConvertHex(s)[i] == '<' || ConvertHex(s)[i] == '>')
    decreases |s|
  {
    var r := ConvertHex(s);
    if HexCodeAt(s, 0) {
      var t := ConvertHex(s[9..]);
      ConvertHexOnlyAmpersands(s[9..]);
      assert forall i :: 9 <= i < |s| ==> r[i] == t[i - 9] && s[i] == s[9..][i - 9];
    } else if s != [] {
      var t := ConvertHex(s[1..]);
      ConvertHexOnlyAmpersands(s[1..]);
      assert forall i :: 1 <= i < |s| ==> r[i] == t[i - 1] && s[i] == s[1..][i - 1];
    }
  }

  /** Text holding no code comes back unchanged. */
  lemma {:induction false} ConvertHexNoCode(s: string)
    requires forall i :: !HexCodeAt(s, i)
    ensures ConvertHex(s) == s
    decreases |s|
  {
    if s != [] {
      forall i ensures !HexCodeAt(s[1..], i) {
        if HexCodeAt(s[1..], i) {
          assert HexCodeAt(s, i + 1);
        }
      }
      ConvertHexNoCode(s[1..]);
    }
  }

  /** From a code at index `i`, the conversion emits `<#RRGGBB>` and goes on
      after the code. */
  lemma ConvertHexAtCode(s: string, i: nat)
    requires HexCodeAt(s, i)
    ensures ConvertHex(s[i..]) == "<#" + s[i + 2..i + 8] + ">" + ConvertHex(s[i + 9..])
  {
    assert HexCodeAt(s[i..], 0) by {
      assert forall k :: 0 <= k < 9 ==> s[i..][k] == s[i + k];
    }
    assert s[i..][9..] == s[i + 9..];
    assert s[i..][2..8] == s[i + 2..i + 8];
  }

  /** Elsewhere, it copies the character at `i`. */
  lemma ConvertHexStep(s: string, i: nat)
    requires i < |s| && !HexCodeAt(s, i)
    ensures ConvertHex(s[i..]) == [s[i]] + ConvertHex(s[i + 1..])
  {
    assert s[i..][1..] == s[i + 1..];
  }

  /** One `find` that matches at `i`: the text since the previous match and
      the replacement are appended, and the scan resumes after the code. */
  lemma HexLoopMatch(text: string, buffer: string, last: nat, i: nat)
    requires last <= i && HexCodeAt(text, i)
    requires ConvertHex(text) == buffer + text[last..i] + ConvertHex(text[i..])
    ensures ConvertHex(text) ==
      (buffer + text[last..i] + "<#" + text[i + 2..i + 8] + ">") + text[i + 9..i + 9] + ConvertHex(text[i + 9..])
  {
    ConvertHexAtCode(text, i);
  }

  /** A position where no code starts is carried over to the pending text. */
  lemma HexLoopSkip(text: string, buffer: string, last: nat, i: nat)
    requires last <= i < |text| && !HexCodeAt(text, i)
    requires ConvertHex(text) == buffer + text[last..i] + ConvertHex(text[i..])
    ensures ConvertHex(text) == buffer + text[last..i + 1] + ConvertHex(text[i + 1..])
  {
    var pending, c, rest := text[last..i], [text[i]], ConvertHex(text[i + 1..]);
    ConvertHexStep(text, i);
    SliceSnoc(text, last, i);
    Regroup(buffer, pending, c, rest);
  }

  lemma SliceSnoc<T>(s: seq<T>, a: nat, b: nat)
    requires a <= b < |s|
    ensures s[a..b] + [s[b]] == s[a..b + 1]
  {
  }

  lemma Regroup<T>(a: seq<T>, b: seq<T>, c: seq<T>, d: seq<T>)
    ensures a + b + (c + d) == a + (b + c) + d
  {
  }

  /** `convertHexColors`: the `Matcher.find` loop with `appendReplacement` and
      `appendTail`. */
  method ConvertHexColors(text: string) returns (out: string)
    ensures out == ConvertHex(text)
  {
    var buffer := "";
    var last := 0;
    var i := 0;
    while i < |text|
      invariant 0 <= last <= i <= |text|
      invariant ConvertHex(text) == buffer + text[last..i] + ConvertHex(text[i..])
    {
      if HexCodeAt(text, i) {
        HexLoopMatch(text, buffer, last, i);
        buffer := buffer + text[last..i] + "<#" + text[i + 2..i + 8] + ">";
        i := i + 9;
        last := i;
      } else {
        HexLoopSkip(text, buffer, last, i);
        i := i + 1;
      }
    }
    assert text[|text|..] == [];
    out := buffer + text[last..];
  }

  /** `HEX_PATTERN.matcher(s).replaceAll("")`: every code removed. */
  function StripHex(s: string): (r: string)
    ensures |r| <= |s|
    decreases |s|
  {
    if HexCodeAt(s, 0) then StripHex(s[9..])
    else if s == [] then []
    else [s[0]] + StripHex(s[1..])
  }

  /** Removing codes keeps text with no `&` unchanged. */
  lemma {:induction false} StripHexNoAmpersand(s: string)
    requires '&' !in s
    ensures StripHex(s) == s
    decreases |s|
  {
    if s != [] {
      assert s[0] in s;
      assert forall c :: c in s[1..] ==> c in s;
      StripHexNoAmpersand(s[1..]);
    }
  }

  /** Text too short to hold a code is kept as it is. */
  lemma {:induction false} StripHexShort(s: string)
    requires |s| < 9
    ensures StripHex(s) == s
    decreases |s|
  {
    if s != [] {
      StripHexShort(s[1..]);
    }
  }

  /** A single pass does not strip every code: removing the inner code of
      "&#&#000000&000000&" joins what surrounds it into a new code, which stays. */
  lemma StripHexLeavesCode()
    ensures StripHex("&#&#000000&000000&") == "&#000000&"
    ensures HexCodeAt(StripHex("&#&#000000&000000&"), 0)
  {
    var inner := "&#000000&000000&";
    var tail := "000000&";
    StripHexOuter();
    StripHexCons('#', inner);
    StripHexInner();
    StripHexShort(tail);
    JoinedCode();
  }

  /** The leading `&` starts no code and is kept. */
  lemma StripHexOuter()
    ensures StripHex("&#&#000000&000000&") == "&" + StripHex("#" + "&#000000&000000&")
  {
    OuterNoCode();
    OuterRest();
  }

  lemma OuterNoCode()
    ensures !HexCodeAt("&#&#000000&000000&", 0)
  {
    var s := "&#&#000000&000000&";
    assert !IsHexDigit(s[2]);
  }

  lemma OuterRest()
    ensures "&#&#000000&000000&"[1..] == "#" + "&#000000&000000&"
  {
  }

  /** A character other than `&` starts no code and is kept. */
  lemma StripHexCons(c: char, t: string)
    requires c != '&'
    ensures StripHex([c] + t) == [c] + StripHex(t)
  {
    assert ([c] + t)[1..] == t;
  }

  /** The inner code is stripped. */
  lemma StripHexInner()
    ensures StripHex("&#000000&000000&") == StripHex("000000&")
  {
    var inner := "&#000000&000000&";
    assert inner[9..] == "000000&";
    assert HexCodeAt(inner, 0);
  }

  /** The two characters before the inner code, joined to what follows it,
      make a code. */
  lemma JoinedCode()
    ensures "&" + ("#" + "000000&") == "&#000000&"
    ensures HexCodeAt("&#000000&", 0)
  {
  }

  /** `colorize(text)`: `""` for `null`, else hex codes converted and then the
      legacy codes translated by the chat library (`translate`). */
  method Colorize(text: Option<string>, translate: string -> string) returns (r: string)
    ensures text.None? ==> r == ""
    ensures text.Some? ==> r == translate(ConvertHex(text.value))
  {
    if text.None? {
      return "";
    }
    var converted := ConvertHexColors(text.value);
    r := translate(converted);
  }

  /** `stripColors(text)`: `""` for `null`, else hex codes removed and then the
      legacy codes stripped by the chat library (`stripLegacy`). */
  function StripColors(text: Option<string>, stripLegacy: string -> string): (r: string)
    ensures text.None? ==> r == ""
    ensures text.Some? && '&' !in text.value ==> r == stripLegacy(text.value)
  {
    match text
    case None => ""
    case Some(t) =>
      if '&' !in t then StripHexNoAmpersand(t); stripLegacy(StripHex(t))
      else stripLegacy(StripHex(t))
  }

  // ---------------------------------------------------------------------------
  // Legacy colours: `&0` … `&r` to MiniMessage tags

  /** The legacy codes and their tags, in the order the source replaces them. */
  const LegacyCodes: seq<(string, string)> := [
    ("&0", "<black>"), ("&1", "<dark_blue>"), ("&2", "<dark_green>"), ("&3", "<dark_aqua>"),
    ("&4", "<dark_red>"), ("&5", "<dark_purple>"), ("&6", "<gold>"), ("&7", "<gray>"),
    ("&8", "<dark_gray>"), ("&9", "<blue>"), ("&a", "<green>"), ("&b", "<aqua>"),
    ("&c", "<red>"), ("&d", "<light_purple>"), ("&e", "<yellow>"), ("&f", "<white>"),
    ("&k", "<obfuscated>"), ("&l", "<bold>"), ("&m", "<strikethrough>"), ("&n", "<underlined>"),
    ("&o", "<italic>"), ("&r", "<reset>")]

  /** A chain of literal `replace` calls, applied in table order. */
  function ReplaceChain(s: string, table: seq<(string, string)>): string
    requires forall i :: 0 <= i < |table| ==> |table[i].0| > 0
    decreases |table|
  {
    if table == [] then s else ReplaceChain(Replace(s, table[0].0, table[0].1), table[1..])
  }

  /** `convertLegacyColors`. */
  function ConvertLegacy(s: string): string {
    ReplaceChain(s, LegacyCodes)
  }

  lemma {:induction false} ReplaceChainAbsent(s: string, table: seq<(string, string)>, c: char)
    requires forall i :: 0 <= i < |table| ==> |table[i].0| > 0 && table[i].0[0] == c
    requires c !in s
    ensures ReplaceChain(s, table) == s
    decreases |table|
  {
    if table != [] {
      ReplaceAbsent(s, table[0].0, table[0].1);
      ReplaceChainAbsent(s, table[1..], c);
    }
  }

  /** Text with no `&` comes back unchanged. */
  lemma ConvertLegacyNoAmpersand(s: string)
    requires '&' !in s
    ensures ConvertLegacy(s) == s
  {
    ReplaceChainAbsent(s, LegacyCodes, '&');
  }
}
