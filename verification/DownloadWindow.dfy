/** The download window of a job document: an absolute validity period, and inside it a daily window
    that may cross midnight. */
module DownloadWindow {
  const MINUTES_PER_DAY: int := 1440

  /** Daily bounds in minutes since midnight (-1: not enforced), validity bounds in epoch seconds (0: not set). */
  datatype Window = Window(dailyStart: int, dailyEnd: int, validFrom: int, validTo: int)

  predicate HasWindow(w: Window) {
    w.validFrom != 0 && w.validTo != 0
  }

  predicate Minute(m: int) {
    0 <= m < MINUTES_PER_DAY
  }

  /** A daily window whose bounds are times of day; a window may also be declared to end at 24:00. */
  predicate Daily(w: Window) {
    Minute(w.dailyStart) && 0 <= w.dailyEnd <= MINUTES_PER_DAY
  }

  /** The times of day the daily window admits, on the circle of the day. */
  predicate Open(w: Window, minute: int) {
    if w.dailyStart <= w.dailyEnd then w.dailyStart <= minute <= w.dailyEnd
    else minute >= w.dailyStart || minute <= w.dailyEnd
  }

  predicate OpenAfter(w: Window, minute: int, delay: int) {
    Open(w, (minute + delay) % MINUTES_PER_DAY)
  }

  /** The daily window is what decides: it is set, and the clock is inside the validity period. */
  predicate DailyApplies(w: Window, now: int) {
    && HasWindow(w) && w.validFrom <= now <= w.validTo
    && w.dailyStart != -1 && w.dailyEnd != -1
  }

  /** The minutes to wait, with the case of a window across midnight rotated so that it starts at 0. */
  function DailyDelay(w: Window, minute: int): int {
    var diff := if w.dailyStart > w.dailyEnd then MINUTES_PER_DAY - w.dailyStart else 0;
    var first := if w.dailyStart > w.dailyEnd then 0 else w.dailyStart;
    var last := w.dailyEnd + diff;
    var shifted := minute + diff;
    var at := if w.dailyStart > w.dailyEnd && shifted > MINUTES_PER_DAY then shifted - MINUTES_PER_DAY else shifted;
    if first <= at <= last then 0
    else if first - at < 0 then first - at + MINUTES_PER_DAY else first - at
  }

  /** `get_download_window_delay_time`: negative means expired, 0 means now, positive is a delay in minutes. */
  function Delay(w: Window, now: int, minute: int): int {
    if !HasWindow(w) then 0
    else if w.validFrom > w.validTo then -1
    else if now < w.validFrom then (w.validFrom - now) / 60
    else if now > w.validTo then -1
    else if w.dailyStart == -1 || w.dailyEnd == -1 then 0
    else DailyDelay(w, minute)
  }

  /** The daily part, stated on the circle: 0 exactly inside the window, else the least wait that reaches it. */
  lemma DailyDelayIsLeastWait(w: Window, minute: int)
    requires Daily(w) && Minute(minute)
    ensures DailyDelay(w, minute) == 0 <==> Open(w, minute)
    ensures 0 <= DailyDelay(w, minute) < MINUTES_PER_DAY
    ensures OpenAfter(w, minute, DailyDelay(w, minute))
    ensures forall d | 0 <= d < DailyDelay(w, minute) :: !OpenAfter(w, minute, d)
  {
    forall d | 0 <= d < DailyDelay(w, minute) ensures !OpenAfter(w, minute, d) {
      assert (minute + d) % MINUTES_PER_DAY
          == if minute + d < MINUTES_PER_DAY then minute + d else minute + d - MINUTES_PER_DAY;
    }
  }

  /** The shift leaves the clock at 1440 when a window across midnight opens right now; the wait is 0 all the same. */
  lemma OpeningMinuteOfNightWindow(w: Window)
    requires Daily(w) && w.dailyStart > w.dailyEnd
    ensures w.dailyStart + (MINUTES_PER_DAY - w.dailyStart) > w.dailyEnd + (MINUTES_PER_DAY - w.dailyStart)
    ensures DailyDelay(w, w.dailyStart) == 0 && Open(w, w.dailyStart)
  {
  }

  /** May the job run at this moment, as the job document declares it? */
  predicate Admits(w: Window, now: int, minute: int) {
    || !HasWindow(w)
    || (w.validFrom <= now <= w.validTo && (w.dailyStart == -1 || w.dailyEnd == -1 || Open(w, minute)))
  }

  /** The answer 0 means "run now" for every clock, except in the last 59 seconds before the validity
      period starts: there the division by 60 answers 0 although the period has not started. */
  lemma RunsExactlyWhenAdmitted(w: Window, now: int, minute: int)
    requires Minute(minute) && (DailyApplies(w, now) ==> Daily(w))
    ensures Delay(w, now, minute) == 0 <==>
              || Admits(w, now, minute)
              || (HasWindow(w) && w.validFrom <= w.validTo && w.validFrom - 60 < now < w.validFrom)
    ensures (Delay(w, now, minute) == 0 <==> Admits(w, now, minute)) <==>
              !(HasWindow(w) && w.validFrom <= w.validTo && w.validFrom - 60 < now < w.validFrom)
  {
    if DailyApplies(w, now) {
      DailyDelayIsLeastWait(w, minute);
    }
  }

  /** A clock one second before the validity period already gets the answer "run now". */
  lemma RunsBeforeValidity()
    ensures var w := Window(-1, -1, 1704067200, 1706745600);
            Delay(w, 1704067199, 0) == 0 && !Admits(w, 1704067199, 0)
  {
  }

  /** A window without both validity bounds imposes no restriction, whatever its daily bounds say. */
  lemma PartialWindowIgnored(w: Window, now: int, minute: int)
    requires w.validFrom == 0 || w.validTo == 0
    ensures !HasWindow(w) && Delay(w, now, minute) == 0
  {
  }

  /** A document that declares only a daily window from 10:00 to 11:00 is let through at midnight. */
  lemma DailyOnlyWindowAdmitsMidnight()
    ensures var w := Window(600, 660, 0, 0);
            !Open(w, 0) && Admits(w, 1704067200, 0) && Delay(w, 1704067200, 0) == 0
  {
  }

  method GetDownloadWindowDelayTime(w: Window, now: int, nowMinute: int) returns (delay: int)
    ensures delay == Delay(w, now, nowMinute)
    ensures DailyApplies(w, now) && Daily(w) && Minute(nowMinute) ==>
              && (delay == 0 <==> Open(w, nowMinute))
              && delay >= 0 && OpenAfter(w, nowMinute, delay)
              && forall d | 0 <= d < delay :: !OpenAfter(w, nowMinute, d)
    ensures HasWindow(w) && (w.validFrom > w.validTo || now > w.validTo) ==> delay < 0
  {
    var startTime, endTime := w.validFrom, w.validTo;
    if startTime == 0 || endTime == 0 {
      return 0;
    }
    if startTime > endTime {
      return -1;
    }
    if now < startTime {
      return (startTime - now) / 60;
    }
    if now > endTime {
      return -1;
    }
    var start, end := w.dailyStart, w.dailyEnd;
    if start == -1 || end == -1 {
      return 0;
    }
    if Daily(w) && Minute(nowMinute) {
      DailyDelayIsLeastWait(w, nowMinute);
    }
    var minute := nowMinute;
    if start > end {
      var diff := MINUTES_PER_DAY - start;
      start := 0;
      end := end + diff;
      minute := minute + diff;
      if minute > MINUTES_PER_DAY {
        minute := minute - MINUTES_PER_DAY;
      }
    }
    if minute >= start && minute <= end {
      return 0;
    }
    delay := start - minute;
    if delay < 0 {
      delay := delay + MINUTES_PER_DAY;
    }
  }
}
