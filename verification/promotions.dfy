/** Campaign schedules: daily windows turned into UTC, and lists bounded so that the cache accepts them. */
module Promotions {
  import opened Basics

  const DAY := 1440
  const MAX_PROMOTIONS := 128
  const MAX_MODELS := 256
  const MAX_WINDOWS := 16
  const MAX_ID := 128

  // ----- clock times -----

  function Fields(s: string): (r: seq<string>)
    ensures |r| >= 1
  {
    if s == "" then [""]
    else
      var r := Fields(s[1..]);
      if s[0] == ':' then [""] + r else [[s[0]] + r[0]] + r[1..]
  }

  predicate IsDigit(c: char) {
    '0' <= c <= '9'
  }

  function DigitsValue(s: string): Option<nat> {
    if s == "" then Some(0)
    else
      var before, c := DigitsValue(s[..|s| - 1]), s[|s| - 1];
      if before.None? || !IsDigit(c) then None else Some(10 * before.value + (c as int - '0' as int))
  }

  /** A decimal integer with an optional sign. */
  function ParseInt(s: string): Option<int> {
    var signed := s != "" && (s[0] == '+' || s[0] == '-');
    var digits := if signed then s[1..] else s;
    var v := DigitsValue(digits);
    if digits == "" || v.None? then None
    else
      var n: int := v.value;
      Some(if signed && s[0] == '-' then -n else n)
  }

  /** "23:00", "7:50", a bare hour, or with seconds, which are ignored; 24:00 is the end of the day. */
  function ParseClockMinute(value: string): Option<int> {
    var trimmed := TrimSpace(value);
    var parts := Fields(trimmed);
    if trimmed == "" || |parts| > 3 then None else ClockMinute(parts)
  }

  function Number(s: string): Option<int> {
    ParseInt(TrimSpace(s))
  }

  function ClockMinute(parts: seq<string>): (r: Option<int>)
    requires |parts| >= 1
    ensures r.Some? ==> 0 <= r.value <= DAY
  {
    Minutes(Number(parts[0]), if |parts| > 1 then Number(parts[1]) else Some(0))
  }

  function Minutes(hour: Option<int>, minute: Option<int>): (r: Option<int>)
    ensures r.Some? ==> 0 <= r.value <= DAY
  {
    if hour.None? || !(0 <= hour.value <= 24) || minute.None? || !(0 <= minute.value <= 59) || (hour.value == 24 && minute.value != 0) then None
    else Some(hour.value * 60 + minute.value)
  }

  function TwoDigits(n: nat): string
    requires n < 100
  {
    ['0' + (n / 10) as char, '0' + (n % 10) as char]
  }

  function Format(m: nat): string
    requires m <= DAY
  {
    TwoDigits(m / 60) + ":" + TwoDigits(m % 60)
  }

  lemma TwoDigitsParse(n: nat)
    requires n < 100
    ensures Number(TwoDigits(n)) == Some(n)
  {
    var s := TwoDigits(n);
    assert IsDigit(s[0]) && IsDigit(s[1]);
    TrimmedAlready(s);
    assert s[..1] == [s[0]] && s[..1][..0] == "";
    assert DigitsValue(s[..1]) == Some(n / 10);
  }

  lemma FieldsOfOne(c: char, s: string)
    requires c != ':'
    ensures Fields([c] + s) == [[c] + Fields(s)[0]] + Fields(s)[1..]
  {}

  lemma FieldsOfTwo(l: string)
    requires |l| == 2 && l[0] != ':' && l[1] != ':'
    ensures Fields(l) == [l]
  {
    FieldsOfOne(l[1], "");
    assert [l[1]] + "" == [l[1]] && [""][1..] == [];
    assert Fields([l[1]]) == [[l[1]]];
    FieldsOfOne(l[0], [l[1]]);
    assert l == [l[0]] + [l[1]];
  }

  lemma FieldsOfClock(h: string, l: string)
    requires |h| == 2 && h[0] != ':' && h[1] != ':' && |l| == 2 && l[0] != ':' && l[1] != ':'
    ensures Fields(h + ":" + l) == [h, l]
  {
    FieldsOfTwo(l);
    assert (":" + l)[1..] == l;
    assert Fields(":" + l) == ["", l];
    FieldsOfOne(h[1], ":" + l);
    assert [h[1]] + "" == [h[1]] && ["", l][1..] == [l];
    assert Fields([h[1]] + (":" + l)) == [[h[1]], l];
    FieldsOfOne(h[0], [h[1]] + (":" + l));
    assert h + ":" + l == [h[0]] + ([h[1]] + (":" + l));
    assert [h[0]] + [h[1]] == h;
  }

  /** Every minute of the day, and its end, survives being written and read back. */
  lemma ClockRoundTrip(m: nat)
    requires m <= DAY
    ensures ParseClockMinute(Format(m)) == Some(m)
  {
    var h, l := TwoDigits(m / 60), TwoDigits(m % 60);
    TrimmedAlready(Format(m));
    FieldsOfClock(h, l);
    ClockOfTwo(m);
  }

  lemma ClockOfTwo(m: nat)
    requires m <= DAY
    ensures ClockMinute([TwoDigits(m / 60), TwoDigits(m % 60)]) == Some(m)
  {
    TwoDigitsParse(m / 60);
    TwoDigitsParse(m % 60);
  }

  function Join(parts: seq<string>): string
    requires |parts| >= 1
  {
    if |parts| == 1 then parts[0] else parts[0] + ":" + Join(parts[1..])
  }

  /** The fields of a text are its parts between the colons. */
  lemma {:induction false} FieldsMeaning(s: string)
    ensures Join(Fields(s)) == s && forall p | p in Fields(s) :: ':' !in p
  {
    if s != "" {
      var r := Fields(s[1..]);
      FieldsMeaning(s[1..]);
      assert s == [s[0]] + s[1..];
      if s[0] == ':' {
        JoinCons("", r);
      } else {
        assert r[0] in r;
        HeadGrows(s[0], r);
      }
    }
  }

  lemma ColonAfter(c: char, x: string, y: string)
    ensures [c] + x + ":" + y == [c] + (x + ":" + y)
  {}

  lemma JoinCons(first: string, rest: seq<string>)
    requires rest != []
    ensures Join([first] + rest) == first + ":" + Join(rest)
  {
    assert ([first] + rest)[1..] == rest;
  }

  lemma HeadGrows(c: char, r: seq<string>)
    requires |r| >= 1
    ensures Join([[c] + r[0]] + r[1..]) == [c] + Join(r)
  {
    if |r| > 1 {
      JoinCons([c] + r[0], r[1..]);
      ColonAfter(c, r[0], Join(r[1..]));
    }
  }

  /** An hour from 0 to 24 and a minute from 0 to 59; 24 has no minutes. */
  predicate IsClock(h: Option<int>, m: Option<int>) {
    h.Some? && m.Some? && 0 <= h.value && 0 <= m.value < 60 && (h.value < 24 || (h.value == 24 && m.value == 0))
  }

  /** The minute of the day that the parts of a clock time name: an hour, alone or followed by a minute and whatever
      stands for the seconds. */
  function ClockOf(parts: seq<string>): Option<int>
    requires |parts| >= 1
  {
    var h, m := Number(parts[0]), if |parts| > 1 then Number(parts[1]) else Some(0);
    if |parts| <= 3 && IsClock(h, m) then Some(60 * h.value + m.value) else None
  }

  lemma PartsMeaning(parts: seq<string>)
    requires 1 <= |parts| <= 3
    ensures ClockMinute(parts) == ClockOf(parts)
  {}

  lemma ClockMeaning(value: string)
    ensures ParseClockMinute(value) == if TrimSpace(value) == "" then None else ClockOf(Fields(TrimSpace(value)))
  {
    var parts := Fields(TrimSpace(value));
    if |parts| <= 3 { PartsMeaning(parts); }
  }

  // ----- windows -----

  /** The remainder of a division that truncates towards zero. */
  function Remainder(a: int, b: int): int
    requires b > 0
  {
    if a >= 0 then a % b else -((-a) % b)
  }

  function Wrapped(a: int): int {
    Remainder(Remainder(a, DAY) + DAY, DAY)
  }

  datatype Day = Day(start: string, end: string)

  /** Opens at a UTC minute of the day and lasts some minutes. */
  datatype Window = Window(startMin: int, durationMin: int)

  function NormalizeWindow(day: Day, offset: int): Option<Window> {
    var start, end := ParseClockMinute(day.start), ParseClockMinute(day.end);
    if start.None? || end.None? then None
    else Some(WindowOf(start.value, end.value, offset))
  }

  function WindowOf(start: int, end: int, offset: int): Window {
    var duration := Wrapped(end - start);
    Window(Wrapped(start - offset), if duration == 0 then DAY else duration)
  }

  predicate ValidWindow(w: Window) {
    0 <= w.startMin <= DAY - 1 && 0 < w.durationMin <= DAY
  }

  /** How the panel decides whether a window is open at a UTC minute of the day. */
  predicate Open(w: Window, utc: int) {
    w.durationMin >= DAY || Remainder(utc - w.startMin + DAY, DAY) < w.durationMin
  }

  /** A local minute of the day lies from `start` to before `end`, over midnight if need be; an interval that
      ends where it starts is the whole day. */
  predicate Within(local: int, start: int, end: int) {
    var s, e := start % DAY, end % DAY;
    if s == e then true else if s < e then s <= local < e else s <= local || local < e
  }

  lemma WrappedIsModulo(a: int)
    ensures Wrapped(a) == a % DAY && 0 <= Wrapped(a) < DAY
  {
    if a < 0 {
      var q, m := (-a) / DAY, (-a) % DAY;
      assert -a == q * DAY + m;
      assert a == (-q - 1) * DAY + (DAY - m);
    }
  }

  /** For every zone offset, a window is open at a UTC minute exactly when the local minute lies in the
      interval the schedule names. */
  lemma WindowMeansInterval(day: Day, offset: int, utc: int)
    requires 0 <= utc < DAY
    ensures var start, end, w := ParseClockMinute(day.start), ParseClockMinute(day.end), NormalizeWindow(day, offset);
            && (w.Some? <==> start.Some? && end.Some?)
            && (w.Some? ==> ValidWindow(w.value) && (Open(w.value, utc) <==> Within((utc + offset) % DAY, start.value, end.value)))
  {
    var start, end := ParseClockMinute(day.start), ParseClockMinute(day.end);
    if start.Some? && end.Some? { WindowOfMeaning(start.value, end.value, offset, utc); }
  }

  lemma WindowOfMeaning(start: int, end: int, offset: int, utc: int)
    requires 0 <= utc < DAY
    ensures var w := WindowOf(start, end, offset);
            ValidWindow(w) && (Open(w, utc) <==> Within((utc + offset) % DAY, start, end))
  {
    WrappedIsModulo(end - start);
    WrappedIsModulo(start - offset);
    OpenMeansWithin(start, end, offset, utc);
  }

  lemma OpenMeansWithin(start: int, end: int, offset: int, utc: int)
    requires 0 <= utc < DAY
    ensures var d := (end - start) % DAY;
            Open(Window((start - offset) % DAY, if d == 0 then DAY else d), utc) <==> Within((utc + offset) % DAY, start, end)
  {
    SinceIsLocal(utc, start, offset);
    Difference((utc + offset) % DAY, start % DAY);
    Shifted(end % DAY - start % DAY, end / DAY - start / DAY);
    Difference(end % DAY, start % DAY);
  }

  /** Since the window opened is as long as since the local start. */
  lemma SinceIsLocal(utc: int, start: int, offset: int)
    ensures (utc - (start - offset) % DAY + DAY) % DAY == ((utc + offset) % DAY - start % DAY) % DAY
  {
    var q, r, p := (start - offset) / DAY, (utc + offset) / DAY, start / DAY;
    Shifted((utc + offset) % DAY - start % DAY, r + q - p + 1);
  }

  lemma Shifted(a: int, k: int)
    ensures (a + DAY * k) % DAY == a % DAY
  {
    assert a + DAY * k == DAY * (a / DAY + k) + a % DAY;
  }

  lemma Difference(x: int, y: int)
    requires 0 <= x < DAY && 0 <= y < DAY
    ensures (x - y) % DAY == if x >= y then x - y else x - y + DAY
  {}

  // ----- lists -----

  /** Trims, and cuts what is too long, however the cut is made. */
  function Bounded(cut: (string, nat) -> string, value: string, limit: nat): (r: string)
    ensures NoOuterSpace(r)
  {
    var t := TrimSpace(value);
    if limit == 0 || |t| <= limit then t else TrimSpace(cut(t, limit))
  }

  function BoundedEach(cut: (string, nat) -> string, names: seq<string>): (r: seq<string>)
    ensures |r| == |names|
  {
    if names == [] then [] else BoundedEach(cut, names[..|names| - 1]) + [Bounded(cut, names[|names| - 1], MAX_ID)]
  }

  lemma BoundedEachSnoc(cut: (string, nat) -> string, names: seq<string>, name: string)
    ensures BoundedEach(cut, names + [name]) == BoundedEach(cut, names) + [Bounded(cut, name, MAX_ID)]
  {}

  function Take<T>(s: seq<T>, n: nat): seq<T> {
    if |s| <= n then s else s[..n]
  }

  datatype Entry = Entry(id: string, enabled: Option<bool>, models: seq<string>, days: seq<Day>, offset: int)

  datatype Promotion = Promotion(id: string, models: seq<string>, windows: seq<Window>)

  function AllWindows(days: seq<Day>, offset: int): seq<Window> {
    if days == [] then [] else
      var w := NormalizeWindow(days[|days| - 1], offset);
      AllWindows(days[..|days| - 1], offset) + (if w.Some? then [w.value] else [])
  }

  function NormalizeOne(cut: (string, nat) -> string, e: Entry): Option<Promotion> {
    var id, models := Bounded(cut, e.id, MAX_ID), BoundedEach(cut, Take(Trimmed(e.models), MAX_MODELS));
    if id == "" || e.enabled == Some(false) || models == [] then None
    else Some(Promotion(id, models, Take(AllWindows(e.days, e.offset), MAX_WINDOWS)))
  }

  function AllPromotions(cut: (string, nat) -> string, entries: seq<Entry>): seq<Promotion> {
    if entries == [] then [] else
      var p := NormalizeOne(cut, entries[|entries| - 1]);
      AllPromotions(cut, entries[..|entries| - 1]) + (if p.Some? then [p.value] else [])
  }

  /** A limit that is not positive is no limit. */
  method BoundedStringList(cut: (string, nat) -> string, values: seq<string>, limit: int) returns (out: seq<string>)
    ensures out == BoundedEach(cut, if limit > 0 then Take(Trimmed(values), limit) else Trimmed(values))
  {
    out := [];
    ghost var names: seq<string> := [];
    var seen: set<string> := {};
    for k := 0 to |values|
      invariant names == Trimmed(values[..k]) && (limit > 0 ==> |names| < limit) && out == BoundedEach(cut, names)
      invariant forall t :: t in seen <==> t in names
    {
      TrimmedPrefix(values, k);
      var trimmed := TrimSpace(values[k]);
      if trimmed == "" || trimmed in seen { continue; }
      seen := seen + {trimmed};
      BoundedEachSnoc(cut, names, trimmed);
      names := names + [trimmed];
      out := out + [Bounded(cut, trimmed, MAX_ID)];
      if limit > 0 && |out| >= limit {
        FullList(values, k + 1, limit);
        return;
      }
    }
    assert values[..|values|] == values;
  }

  lemma FullList(values: seq<string>, k: nat, limit: nat)
    requires k <= |values| && |Trimmed(values[..k])| == limit
    ensures Take(Trimmed(values), limit) == Trimmed(values[..k])
  {
    TrimmedGrows(values, k);
  }

  method NormalizeWindows(days: seq<Day>, offset: int) returns (out: seq<Window>)
    ensures out == Take(AllWindows(days, offset), MAX_WINDOWS)
  {
    out := [];
    for k := 0 to |days|
      invariant out == AllWindows(days[..k], offset) && |out| <= MAX_WINDOWS
    {
      if |out| >= MAX_WINDOWS {
        WindowsGrow(days, offset, k);
        return;
      }
      assert days[..k + 1][..k] == days[..k];
      var w := NormalizeWindow(days[k], offset);
      if w.Some? { out := out + [w.value]; }
    }
    assert days[..|days|] == days;
  }

  lemma {:induction false} WindowsGrow(days: seq<Day>, offset: int, k: nat)
    requires k <= |days|
    ensures AllWindows(days[..k], offset) <= AllWindows(days, offset)
  {
    if k < |days| {
      assert days[..|days| - 1][..k] == days[..k];
      WindowsGrow(days[..|days| - 1], offset, k);
    } else {
      assert days[..k] == days;
    }
  }

  method NormalizeOnePromotion(cut: (string, nat) -> string, e: Entry) returns (p: Option<Promotion>)
    ensures p == NormalizeOne(cut, e)
  {
    var id := Bounded(cut, e.id, MAX_ID);
    if id == "" || e.enabled == Some(false) { return None; }
    var models := BoundedStringList(cut, e.models, MAX_MODELS);
    if |models| == 0 { return None; }
    var windows := NormalizeWindows(e.days, e.offset);
    p := Some(Promotion(id, models, windows));
  }

  /** The first usable campaigns, each bounded; unusable ones are skipped. */
  method NormalizeModelPromotions(cut: (string, nat) -> string, entries: seq<Entry>) returns (out: seq<Promotion>)
    ensures out == Take(AllPromotions(cut, entries), MAX_PROMOTIONS)
  {
    out := [];
    for k := 0 to |entries|
      invariant out == AllPromotions(cut, entries[..k]) && |out| < MAX_PROMOTIONS
    {
      var p := NextPromotion(cut, entries, k);
      if p.None? { continue; }
      out := out + [p.value];
      if |out| >= MAX_PROMOTIONS {
        FullPromotions(cut, entries, k + 1);
        return;
      }
    }
    assert entries[..|entries|] == entries;
  }

  method NextPromotion(cut: (string, nat) -> string, entries: seq<Entry>, k: nat) returns (p: Option<Promotion>)
    requires k < |entries|
    ensures AllPromotions(cut, entries[..k + 1]) == AllPromotions(cut, entries[..k]) + (if p.Some? then [p.value] else [])
  {
    assert entries[..k + 1][..k] == entries[..k];
    p := NormalizeOnePromotion(cut, entries[k]);
  }

  lemma FullPromotions(cut: (string, nat) -> string, entries: seq<Entry>, k: nat)
    requires k <= |entries| && |AllPromotions(cut, entries[..k])| == MAX_PROMOTIONS
    ensures Take(AllPromotions(cut, entries), MAX_PROMOTIONS) == AllPromotions(cut, entries[..k])
  {
    PromotionsGrow(cut, entries, k);
  }

  lemma {:induction false} PromotionsGrow(cut: (string, nat) -> string, entries: seq<Entry>, k: nat)
    requires k <= |entries|
    ensures AllPromotions(cut, entries[..k]) <= AllPromotions(cut, entries)
  {
    if k < |entries| {
      assert entries[..|entries| - 1][..k] == entries[..k];
      PromotionsGrow(cut, entries[..|entries| - 1], k);
    } else {
      assert entries[..k] == entries;
    }
  }

  /** The usable campaigns are the entries that normalize, in their order: a longer list only adds to them. */
  lemma {:induction false} PromotionsMeaning(cut: (string, nat) -> string, entries: seq<Entry>, p: Promotion, k: nat)
    requires k <= |entries|
    ensures p in AllPromotions(cut, entries) <==> NormalizesTo(cut, entries, p)
    ensures AllPromotions(cut, entries[..k]) <= AllPromotions(cut, entries)
  {
    PromotionsGrow(cut, entries, k);
    PromotionsFrom(cut, entries, p);
  }

  ghost predicate NormalizesTo(cut: (string, nat) -> string, entries: seq<Entry>, p: Promotion) {
    exists e | e in entries :: NormalizeOne(cut, e) == Some(p)
  }

  lemma {:induction false} PromotionsFrom(cut: (string, nat) -> string, entries: seq<Entry>, p: Promotion)
    ensures p in AllPromotions(cut, entries) <==> NormalizesTo(cut, entries, p)
  {
    if entries != [] {
      var init, last := entries[..|entries| - 1], entries[|entries| - 1];
      assert entries == init + [last];
      PromotionsFrom(cut, init, p);
      LastPromotion(cut, init, last, p);
      LastEntry(cut, init, last, p);
    }
  }

  lemma LastEntry(cut: (string, nat) -> string, init: seq<Entry>, last: Entry, p: Promotion)
    ensures NormalizesTo(cut, init + [last], p) <==> NormalizesTo(cut, init, p) || NormalizeOne(cut, last) == Some(p)
  {
    var o := NormalizeOne(cut, last);
    assert last in init + [last];
  }

  lemma LastPromotion(cut: (string, nat) -> string, init: seq<Entry>, last: Entry, p: Promotion)
    ensures p in AllPromotions(cut, init + [last]) <==> p in AllPromotions(cut, init) || NormalizeOne(cut, last) == Some(p)
  {
    assert (init + [last])[..|init|] == init;
  }

  // ----- the cache's validator -----

  predicate ValidPromotion(p: Promotion) {
    TrimSpace(p.id) != "" && |p.models| <= MAX_MODELS && |p.windows| <= MAX_WINDOWS && forall w | w in p.windows :: ValidWindow(w)
  }

  predicate ValidPromotions(ps: seq<Promotion>) {
    |ps| <= MAX_PROMOTIONS && forall p | p in ps :: ValidPromotion(p)
  }

  predicate Bounds(ps: seq<Promotion>) {
    |ps| <= 128 && forall p | p in ps ::
      && TrimSpace(p.id) != "" && |p.models| <= 256 && |p.windows| <= 16
      && forall w | w in p.windows :: 0 <= w.startMin < 1440 && 0 < w.durationMin <= 1440
  }

  lemma ValidMeaning(ps: seq<Promotion>)
    ensures ValidPromotions(ps) <==> Bounds(ps)
  {}

  method ValidateModelPromotions(ps: seq<Promotion>) returns (ok: bool)
    ensures ok <==> Bounds(ps)
  {
    ValidMeaning(ps);
    if |ps| > MAX_PROMOTIONS { return false; }
    for i := 0 to |ps|
      invariant forall k | 0 <= k < i :: ValidPromotion(ps[k])
    {
      var valid := ValidateOne(ps[i]);
      assert ps[i] in ps;
      if !valid { return false; }
    }
    ok := true;
  }

  method ValidateOne(p: Promotion) returns (ok: bool)
    ensures ok <==> ValidPromotion(p)
  {
    if TrimSpace(p.id) == "" || |p.models| > MAX_MODELS || |p.windows| > MAX_WINDOWS { return false; }
    for j := 0 to |p.windows|
      invariant forall k | 0 <= k < j :: ValidWindow(p.windows[k])
    {
      var w := p.windows[j];
      assert w in p.windows;
      if w.startMin < 0 || w.startMin > DAY - 1 || w.durationMin <= 0 || w.durationMin > DAY { return false; }
    }
    ok := true;
  }

  lemma {:induction false} AllWindowsValid(days: seq<Day>, offset: int)
    ensures forall w | w in AllWindows(days, offset) :: ValidWindow(w)
  {
    if days != [] {
      var day := days[|days| - 1];
      AllWindowsValid(days[..|days| - 1], offset);
      if NormalizeWindow(day, offset).Some? { WindowMeansInterval(day, offset, 0); }
    }
  }

  lemma OneIsValid(cut: (string, nat) -> string, e: Entry)
    requires NormalizeOne(cut, e).Some?
    ensures ValidPromotion(NormalizeOne(cut, e).value)
  {
    TrimmedAlready(Bounded(cut, e.id, MAX_ID));
    AllWindowsValid(e.days, e.offset);
  }

  /** Whatever upstream sends, the normalized list passes the validator of the cache. */
  lemma NormalizedIsValid(cut: (string, nat) -> string, entries: seq<Entry>)
    ensures Bounds(Take(AllPromotions(cut, entries), 128))
  {
    AllAreValid(cut, entries);
  }

  lemma {:induction false} AllAreValid(cut: (string, nat) -> string, entries: seq<Entry>)
    ensures forall p | p in AllPromotions(cut, entries) :: ValidPromotion(p)
  {
    if entries != [] {
      var e := entries[|entries| - 1];
      AllAreValid(cut, entries[..|entries| - 1]);
      if NormalizeOne(cut, e).Some? { OneIsValid(cut, e); }
    }
  }

  // ----- what a kept campaign says -----

  predicate UsableDay(day: Day) {
    ParseClockMinute(day.start).Some? && ParseClockMinute(day.end).Some?
  }

  function UsableDays(days: seq<Day>): seq<Day> {
    if days == [] then [] else UsableDays(days[..|days| - 1]) + if UsableDay(days[|days| - 1]) then [days[|days| - 1]] else []
  }

  predicate OpenOn(day: Day, offset: int, utc: int)
    requires UsableDay(day)
  {
    Within((utc + offset) % 1440, ParseClockMinute(day.start).value, ParseClockMinute(day.end).value)
  }

  lemma {:induction false} WindowsOfDays(days: seq<Day>, offset: int, utc: int)
    requires 0 <= utc < 1440
    ensures |AllWindows(days, offset)| == |UsableDays(days)|
    ensures forall k | 0 <= k < |UsableDays(days)| ::
              UsableDay(UsableDays(days)[k]) && (Open(AllWindows(days, offset)[k], utc) <==> OpenOn(UsableDays(days)[k], offset, utc))
  {
    if days != [] {
      WindowsOfDays(days[..|days| - 1], offset, utc);
      WindowMeansInterval(days[|days| - 1], offset, utc);
    }
  }

  lemma {:induction false} BoundedEachAt(cut: (string, nat) -> string, names: seq<string>, k: nat)
    requires k < |names|
    ensures BoundedEach(cut, names)[k] == Bounded(cut, names[k], MAX_ID)
  {
    if k < |names| - 1 { BoundedEachAt(cut, names[..|names| - 1], k); }
  }

  lemma SomeTrimmed(raw: seq<string>)
    ensures Trimmed(raw) != [] <==> exists r | r in raw :: TrimSpace(r) != ""
  {
    if Trimmed(raw) != [] {
      var r := TrimmedFrom(raw, Trimmed(raw)[0]);
    }
    if r :| r in raw && TrimSpace(r) != "" { TrimmedHas(raw, r); }
  }

  /** A campaign of short names is kept exactly if it has an ID and some model and is not switched off; it then names its
      first 256 distinct models, and one of its windows is open at a UTC minute exactly if the local minute lies in
      one of its first sixteen usable daily intervals. */
  lemma CampaignMeaning(cut: (string, nat) -> string, e: Entry, utc: int)
    requires 0 <= utc < 1440 && |TrimSpace(e.id)| <= 128 && forall m | m in e.models :: |TrimSpace(m)| <= 128
    ensures NormalizeOne(cut, e).Some? <==> TrimSpace(e.id) != "" && e.enabled != Some(false) && exists m | m in e.models :: TrimSpace(m) != ""
    ensures NormalizeOne(cut, e).Some? ==>
              var p := NormalizeOne(cut, e).value;
              && p.id == TrimSpace(e.id) && p.models == Take(Trimmed(e.models), 256)
              && ((exists w | w in p.windows :: Open(w, utc)) <==>
                    exists k | 0 <= k < 16 && k < |UsableDays(e.days)| :: OpenOnAt(UsableDays(e.days), k, e.offset, utc))
  {
    SomeTrimmed(e.models);
    ShortModels(cut, e);
    if NormalizeOne(cut, e).Some? { WindowsOpen(e.days, e.offset, utc); }
  }

  predicate OpenOnAt(days: seq<Day>, k: nat, offset: int, utc: int)
    requires k < |days|
  {
    UsableDay(days[k]) && OpenOn(days[k], offset, utc)
  }

  lemma WindowsOpen(days: seq<Day>, offset: int, utc: int)
    requires 0 <= utc < 1440
    ensures var windows := Take(AllWindows(days, offset), 16);
            (exists w | w in windows :: Open(w, utc)) <==>
              exists k | 0 <= k < 16 && k < |UsableDays(days)| :: OpenOnAt(UsableDays(days), k, offset, utc)
  {
    var windows, usable := Take(AllWindows(days, offset), 16), UsableDays(days);
    WindowsOfDays(days, offset, utc);
    if w :| w in windows && Open(w, utc) {
      var k :| 0 <= k < |windows| && windows[k] == w;
      assert OpenOnAt(usable, k, offset, utc);
    }
    if k :| 0 <= k < 16 && k < |usable| && OpenOnAt(usable, k, offset, utc) {
      assert windows[k] in windows;
    }
  }

  lemma ShortModels(cut: (string, nat) -> string, e: Entry)
    requires forall m | m in e.models :: |TrimSpace(m)| <= 128
    ensures BoundedEach(cut, Take(Trimmed(e.models), MAX_MODELS)) == Take(Trimmed(e.models), 256)
  {
    var names := Take(Trimmed(e.models), MAX_MODELS);
    forall k | 0 <= k < |names| ensures BoundedEach(cut, names)[k] == names[k] {
      BoundedEachAt(cut, names, k);
      var m := TrimmedFrom(e.models, names[k]);
      TrimmedAlready(names[k]);
    }
  }
}
