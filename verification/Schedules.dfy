/** Plain-English times (internal/recipe/parser.go:1781-1855, 1904-1922). */
module Schedules {
  import opened Ast
  import opened Text

  /** "30s", "5m" or "30", in seconds. */
  function ParseTimeSuffix(val: string): int {
    if HasSuffix(val, "m") && Atoi(TrimSuffix(val, "m")).Some? then Wrap64(Atoi(TrimSuffix(val, "m")).value * 60)
    else if HasSuffix(val, "s") && Atoi(TrimSuffix(val, "s")).Some? then Atoi(TrimSuffix(val, "s")).value
    else match Atoi(val) case Some(n) => n case None => 0
  }

  /** The hour in "... at 3pm". */
  function ParseTimeOfDay(text: string): Option<int> {
    match Find(text, "at ")
    case None => None
    case Some(i) =>
      var time := TrimSpace(text[i + 3..]);
      var isPm := HasSuffix(time, "pm");
      var number := if isPm then TrimSuffix(time, "pm") else TrimSuffix(time, "am");
      match Atoi(number)
      case None => None
      case Some(hour) =>
        Some(if isPm && hour < 12 then hour + 12 else if !isPm && hour == 12 then 0 else hour)
  }

  const WEEKDAYS := ["sunday", "monday", "tuesday", "wednesday", "thursday", "friday", "saturday"]

  function Weekday(text: string): Option<int> {
    if WEEKDAYS[0] <= text then Some(0)
    else if WEEKDAYS[1] <= text then Some(1)
    else if WEEKDAYS[2] <= text then Some(2)
    else if WEEKDAYS[3] <= text then Some(3)
    else if WEEKDAYS[4] <= text then Some(4)
    else if WEEKDAYS[5] <= text then Some(5)
    else if WEEKDAYS[6] <= text then Some(6)
    else None
  }

  /** The cron expression of a schedule in words. */
  function PlainEnglishToCron(words: string): Option<string> {
    var text := TrimSpace(Lower(words));
    if "day" <= text then
      match ParseTimeOfDay(text)
      case Some(hour) => Some("0 " + Decimal(hour) + " * * *")
      case None => None
    else if text == "hour" then Some("0 * * * *")
    else if HasSuffix(text, "minutes") && Atoi(FirstField(text)).Some? then
      Some("*/" + FirstField(text) + " * * * *")
    else match Weekday(text)
      case None => None
      case Some(day) =>
        match ParseTimeOfDay(text)
        case Some(hour) => Some("0 " + Decimal(hour) + " * * " + Decimal(day))
        case None => None
  }
}
