/** Schedules in words, and the times that they mean (internal/recipe/parser.go:470-500, 1781-1855). */
module SchedulePhrases {
  import opened Ast
  import opened Tokens
  import opened Text
  import opened Edits
  import opened Directives
  import Lexer
  import opened LexerLaws
  import opened LineLaws
  import opened PhraseLaws
  import opened Schedules
  import opened ServicePhrases
  import P = Phrases
  import V = Vocabulary

  // ---- Times of day ----

  /** A text without capitals and without white space at its ends. */
  ghost predicate Plain(s: string) {
    && s != "" && !IsSpace(s[0]) && !IsSpace(s[|s| - 1])
    && forall i :: 0 <= i < |s| ==> 'a' <= s[i] <= 'z' || IsDigit(s[i]) || s[i] == ' '
  }

  lemma PlainKept(s: string)
    requires Plain(s)
    ensures TrimSpace(s) == s && Lower(s) == s
  {
    assert forall i :: 0 <= i < |s| ==> LowerChar(s[i]) == s[i];
  }

  /** Where a word stands behind a text that it does not begin in. */
  lemma {:induction false} FindBehind(p: string, q: string, sub: string)
    requires sub != "" && sub <= q && forall k :: 0 <= k < |p| ==> !(sub <= (p + q)[k..])
    ensures Find(p + q, sub) == Some(|p|)
    decreases |p|
  {
    if p == "" {
      assert p + q == q;
    } else {
      assert (p + q)[0..] == p + q;
      assert !(sub <= p + q);
      assert (p + q)[1..] == p[1..] + q;
      forall k | 0 <= k < |p[1..]| ensures !(sub <= (p[1..] + q)[k..]) {
        assert (p[1..] + q)[k..] == (p + q)[k + 1..];
      }
      FindBehind(p[1..], q, sub);
    }
  }

  /** A day is a word that ends in y. */
  ghost predicate IsDay(d: string) {
    && d != "" && d[|d| - 1] == 'y' && forall i :: 0 <= i < |d| ==> 'a' <= d[i] <= 'z'
  }

  lemma NotAt(u: string)
    requires |u| > 2 ==> u[0] != 'a' || u[1] != 't' || u[2] != ' '
    ensures !("at " <= u)
  {
  }

  lemma AtFound(d: string, time: string)
    requires IsDay(d)
    ensures Find(d + " " + ("at " + time), "at ") == Some(|d| + 1)
  {
    var p, q := d + " ", "at " + time;
    forall k | 0 <= k < |p| ensures !("at " <= (p + q)[k..]) {
      var u := (p + q)[k..];
      if k + 2 < |d| {
        assert u[2] == d[k + 2];
      } else if k + 1 < |d| {
        assert u[1] == d[k + 1];
      } else if k < |d| {
        assert u[0] == d[k];
      } else {
        assert u[0] == ' ';
      }
      NotAt(u);
    }
    FindBehind(p, q, "at ");
  }

  lemma HourPlain(hour: nat, pm: bool)
    ensures Plain(P.HourText(hour, pm))
  {
    hide Itoa;
    var d := Itoa(hour);
    var t := P.HourText(hour, pm);
    assert t[0] == d[0] && IsDigit(d[0]);
    assert t[|t| - 1] == 'm';
    forall i | 0 <= i < |t| ensures 'a' <= t[i] <= 'z' || IsDigit(t[i]) || t[i] == ' ' {
      if i < |d| { assert t[i] == d[i] && IsDigit(d[i]); }
    }
  }

  lemma HourRead(d: string, hour: nat, pm: bool)
    requires IsDay(d) && 1 <= hour <= 12
    ensures ParseTimeOfDay(d + " " + ("at " + P.HourText(hour, pm))) == Some(P.Hour24(hour, pm))
  {
    hide Itoa, Atoi, Find, TrimSpace, Lower, Plain, P.HourText;
    var time := P.HourText(hour, pm);
    var text := d + " " + ("at " + time);
    AtFound(d, time);
    assert text[|d| + 1 + 3..] == time;
    HourPlain(hour, pm);
    PlainKept(time);
    NumberRead(hour, pm);
  }

  lemma NumberRead(hour: nat, pm: bool)
    requires 1 <= hour <= 12
    ensures HasSuffix(P.HourText(hour, pm), "pm") == pm
    ensures Atoi(TrimSuffix(P.HourText(hour, pm), if pm then "pm" else "am")) == Some(hour)
  {
    hide Itoa, Atoi;
    var d := Itoa(hour);
    var t := P.HourText(hour, pm);
    assert t[|d|..] == if pm then "pm" else "am";
    assert t[..|d|] == d;
    AtoiOf(hour);
  }

  lemma AtoiOf(n: nat)
    requires n <= MAX_INT64
    ensures Atoi(Itoa(n)) == Some(n)
  {
    hide Itoa, DigitsValue;
    ItoaValue(n);
    assert IsDigit(Itoa(n)[0]);
  }

  lemma TextPlain(d: string, hour: nat, pm: bool)
    requires IsDay(d)
    ensures Plain(d + " " + ("at " + P.HourText(hour, pm)))
  {
    hide P.HourText;
    var time := P.HourText(hour, pm);
    var text := d + " " + ("at " + time);
    HourPlain(hour, pm);
    assert text[0] == d[0] && text[|text| - 1] == time[|time| - 1];
    forall i | 0 <= i < |text| ensures 'a' <= text[i] <= 'z' || IsDigit(text[i]) || text[i] == ' ' {
      if i >= |d| + 4 { assert text[i] == time[i - |d| - 4]; }
    }
  }

  // ---- Cron expressions ----

  lemma HourlyCron()
    ensures PlainEnglishToCron("hour") == Some("0 * * * *")
  {
    hide Lower, TrimSpace, ParseTimeOfDay, Weekday, Atoi, FirstField, HasSuffix;
    assert Plain("hour");
    PlainKept("hour");
  }

  lemma DailyCron(hour: nat, pm: bool)
    requires 1 <= hour <= 12
    ensures PlainEnglishToCron("day" + " " + ("at " + P.HourText(hour, pm))) ==
              Some("0 " + Itoa(P.Hour24(hour, pm)) + " * * *")
  {
    hide Lower, TrimSpace, ParseTimeOfDay, Weekday, Atoi, FirstField, HasSuffix, P.HourText, Itoa, P.Hour24, Plain;
    var text := "day" + " " + ("at " + P.HourText(hour, pm));
    assert IsDay("day");
    TextPlain("day", hour, pm);
    PlainKept(text);
    HourRead("day", hour, pm);
    assert "day" <= text;
  }

  lemma WeeklyCron(d: string, n: nat, hour: nat, pm: bool)
    requires Names(d, n) && 1 <= hour <= 12
    ensures PlainEnglishToCron(d + " " + ("at " + P.HourText(hour, pm))) ==
              Some("0 " + Itoa(P.Hour24(hour, pm)) + " * * " + Itoa(n))
  {
    hide Lower, TrimSpace, ParseTimeOfDay, Weekday, Atoi, FirstField, P.HourText, Itoa, P.Hour24, Plain;
    var time := P.HourText(hour, pm);
    var text := d + " " + ("at " + time);
    TextPlain(d, hour, pm);
    PlainKept(text);
    HourRead(d, hour, pm);
    assert text == d + (" " + ("at " + time));
    assert !("day" <= text) by { assert text[..3] == d[..3]; }
    assert text[|d|] == ' ' && text != "hour" by { assert |text| > 4; }
    assert !HasSuffix(text, "minutes") by { EndsInM(d, hour, pm); }
  }

  lemma EndsInM(d: string, hour: nat, pm: bool)
    ensures !HasSuffix(d + " " + ("at " + P.HourText(hour, pm)), "minutes")
  {
    hide Itoa;
    var text := d + " " + ("at " + P.HourText(hour, pm));
    assert text[|text| - 1] == 'm';
    SuffixEnds(text, "minutes");
  }

  lemma SuffixEnds(text: string, suffix: string)
    ensures suffix != "" && HasSuffix(text, suffix) ==> text[|text| - 1] == suffix[|suffix| - 1]
  {
    if suffix != "" && HasSuffix(text, suffix) {
      assert text[|text| - |suffix|..][|suffix| - 1] == text[|text| - 1];
    }
  }

  lemma MinutesCron(n: nat)
    requires n <= MAX_INT64
    ensures PlainEnglishToCron(Itoa(n) + " " + "minutes") == Some("*/" + Itoa(n) + " * * * *")
  {
    hide Lower, TrimSpace, ParseTimeOfDay, Weekday, Atoi, FirstField, Itoa, Plain;
    var d := Itoa(n);
    var text := d + " " + "minutes";
    MinutesPlain(d);
    PlainKept(text);
    FieldIs(d, " " + "minutes");
    assert text == d + (" " + "minutes");
    AtoiOf(n);
    assert IsDigit(d[0]) && text[0] == d[0];
    assert text[|text| - 7..] == "minutes";
  }

  lemma MinutesPlain(d: string)
    requires d != "" && AllDigits(d)
    ensures Plain(d + " " + "minutes")
  {
    var text := d + " " + "minutes";
    assert text[0] == d[0] && text[|text| - 1] == 's';
    forall i | 0 <= i < |text| ensures 'a' <= text[i] <= 'z' || IsDigit(text[i]) || text[i] == ' ' {
      if i < |d| { assert text[i] == d[i]; }
    }
  }

  lemma {:induction false} FieldIs(d: string, rest: string)
    requires AllDigits(d) && rest != "" && IsSpace(rest[0])
    ensures FirstField(d + rest) == d
    decreases |d|
  {
    if d == "" {
      assert d + rest == rest;
    } else {
      assert (d + rest)[0] == d[0] && IsDigit(d[0]);
      assert (d + rest)[1..] == d[1..] + rest;
      FieldIs(d[1..], rest);
    }
  }

  // ---- Days of the week ----

  /** A text that begins with a day begins with its first letters. */
  lemma DayLetters(text: string)
    ensures forall i :: 0 <= i < 7 && WEEKDAYS[i] <= text ==>
              text[0] == WEEKDAYS[i][0] && text[1] == WEEKDAYS[i][1]
  {
    forall i | 0 <= i < 7 && WEEKDAYS[i] <= text
      ensures text[0] == WEEKDAYS[i][0] && text[1] == WEEKDAYS[i][1]
    {
      assert |WEEKDAYS[i]| > 1 && text[..|WEEKDAYS[i]|] == WEEKDAYS[i];
    }
  }

  /** The n-th day of the week, by its name. */
  ghost predicate Names(d: string, n: nat) {
    IsDay(d) && |d| > 3 && !("day" <= d) && forall rest :: Weekday(d + rest) == Some(n)
  }

  lemma SundayIs(rest: string)
    ensures Weekday("sunday" + rest) == Some(0)
  {
    var text := "sunday" + rest;
    assert text[..6] == "sunday" && WEEKDAYS[0] <= text;
    DayLetters(text);
  }

  lemma Sunday()
    ensures Names("sunday", 0)
  {
    hide Weekday;
    assert "sunday"[0] != 'd';
    assert "sunday"[..3][0] != "day"[0];
    forall rest ensures Weekday("sunday" + rest) == Some(0) { SundayIs(rest); }
  }

  lemma MondayIs(rest: string)
    ensures Weekday("monday" + rest) == Some(1)
  {
    var text := "monday" + rest;
    assert text[..6] == "monday" && WEEKDAYS[1] <= text;
    DayLetters(text);
  }

  lemma Monday()
    ensures Names("monday", 1)
  {
    hide Weekday;
    assert "monday"[0] != 'd';
    assert "monday"[..3][0] != "day"[0];
    forall rest ensures Weekday("monday" + rest) == Some(1) { MondayIs(rest); }
  }

  lemma TuesdayIs(rest: string)
    ensures Weekday("tuesday" + rest) == Some(2)
  {
    var text := "tuesday" + rest;
    assert text[..7] == "tuesday" && WEEKDAYS[2] <= text;
    DayLetters(text);
  }

  lemma Tuesday()
    ensures Names("tuesday", 2)
  {
    hide Weekday;
    assert "tuesday"[0] != 'd';
    assert "tuesday"[..3][0] != "day"[0];
    forall rest ensures Weekday("tuesday" + rest) == Some(2) { TuesdayIs(rest); }
  }

  lemma WednesdayIs(rest: string)
    ensures Weekday("wednesday" + rest) == Some(3)
  {
    var text := "wednesday" + rest;
    assert text[..9] == "wednesday" && WEEKDAYS[3] <= text;
    DayLetters(text);
  }

  lemma Wednesday()
    ensures Names("wednesday", 3)
  {
    hide Weekday;
    assert "wednesday"[0] != 'd';
    assert "wednesday"[..3][0] != "day"[0];
    forall rest ensures Weekday("wednesday" + rest) == Some(3) { WednesdayIs(rest); }
  }

  lemma ThursdayIs(rest: string)
    ensures Weekday("thursday" + rest) == Some(4)
  {
    var text := "thursday" + rest;
    assert text[..8] == "thursday" && WEEKDAYS[4] <= text;
    DayLetters(text);
  }

  lemma Thursday()
    ensures Names("thursday", 4)
  {
    hide Weekday;
    assert "thursday"[0] != 'd';
    assert "thursday"[..3][0] != "day"[0];
    forall rest ensures Weekday("thursday" + rest) == Some(4) { ThursdayIs(rest); }
  }

  lemma FridayIs(rest: string)
    ensures Weekday("friday" + rest) == Some(5)
  {
    var text := "friday" + rest;
    assert text[..6] == "friday" && WEEKDAYS[5] <= text;
    DayLetters(text);
  }

  lemma Friday()
    ensures Names("friday", 5)
  {
    hide Weekday;
    assert "friday"[0] != 'd';
    assert "friday"[..3][0] != "day"[0];
    forall rest ensures Weekday("friday" + rest) == Some(5) { FridayIs(rest); }
  }

  lemma SaturdayIs(rest: string)
    ensures Weekday("saturday" + rest) == Some(6)
  {
    var text := "saturday" + rest;
    assert text[..8] == "saturday" && WEEKDAYS[6] <= text;
    DayLetters(text);
  }

  lemma Saturday()
    ensures Names("saturday", 6)
  {
    hide Weekday;
    assert "saturday"[0] != 'd';
    assert "saturday"[..3][0] != "day"[0];
    forall rest ensures Weekday("saturday" + rest) == Some(6) { SaturdayIs(rest); }
  }

  // ---- The directives ----

  lemma EveryHandled(s: seq<Token>, nl: Token, words: string, cron: string)
    requires |s| > 2 && s[0].ty.TRun? && s[1].ty.TEvery? && JoinWith(Values(s[2..]), " ") == words
    requires PlainEnglishToCron(words) == Some(cron)
    ensures Comes(s, nl, [SetSchedule(cron)])
  {
    hide Run, PlainEnglishToCron, JoinWith, Values;
    RunBehind(s, nl);
    assert [] + [SetSchedule(cron)] == [SetSchedule(cron)];
    hide RunEvery;
    EveryRead(Rest(s[2..], nl, [], []), words, cron);
    RunDispatch(s, nl, [SetSchedule(cron)]);
  }

  lemma EveryRead(r: Rest, words: string, cron: string)
    requires JoinWith(Values(r.toks), " ") == words && PlainEnglishToCron(words) == Some(cron)
    ensures RunEvery(r) == r.(toks := [], edits := r.edits + [SetSchedule(cron)])
  {
    hide PlainEnglishToCron, JoinWith, Values;
  }

  lemma Joined(toks: seq<Token>)
    ensures |toks| == 1 ==> JoinWith(Values(toks), " ") == toks[0].val
    ensures |toks| == 2 ==> JoinWith(Values(toks), " ") == toks[0].val + " " + toks[1].val
    ensures |toks| == 3 ==>
              JoinWith(Values(toks), " ") == toks[0].val + " " + (toks[1].val + " " + toks[2].val)
  {
    var v := Values(toks);
    if |toks| == 2 || |toks| == 3 { assert v[1..][0] == v[1]; }
    if |toks| == 3 {
      var w := v[1..];
      assert w[1..][0] == v[2] && |w[1..]| == 1;
      assert JoinWith(w[1..], " ") == v[2];
      assert JoinWith(w, " ") == w[0] + " " + JoinWith(w[1..], " ");
    }
  }

  lemma HourTok(hour: nat, pm: bool)
    ensures PieceOk(P.Word(P.HourText(hour, pm))) && TokOf(P.Word(P.HourText(hour, pm))).val == P.HourText(hour, pm)
  {
    hide CoreKeyword, ServiceKeyword, PodKeyword, PolicyKeyword, Itoa;
    var d, w := Itoa(hour), P.HourText(hour, pm);
    assert IsDigit(w[0]) && Lower(w)[0] == w[0];
    forall i | 0 <= i < |w| ensures !Lexer.IsDelimiter(w[i]) && w[i] != '\n' {
      if i < |d| { assert w[i] == d[i] && IsDigit(d[i]); }
    }
    assert Keyword(Lower(w)) == None;
  }

  /** run every hour */
  lemma EveryHourLine()
    ensures Makes(P.LineText([P.Word("run"), P.Word("every"), P.Word("hour")]),
                  (s: Slice) => s.(schedule := "0 * * * *"))
  {
    hide PieceOk, TokOf, Lower, V.Lettered, V.Lowered, Makes, P.LineText, ApplyAll, Comes, PiecesOk, ToksOf,
      PlainEnglishToCron, JoinWith, Values;
    V.RunReads(); V.EveryReads(); V.HourReads();
    var ps := [P.Word("run"), P.Word("every"), P.Word("hour")];
    Pieces3(ps);
    forall s, nl: Token | SameTokens(s, ToksOf(ps)) && nl.ty.TNewline?
      ensures Comes(s, nl, [SetSchedule("0 * * * *")]) {
      Joined(s[2..]);
      HourlyCron();
      EveryHandled(s, nl, "hour", "0 * * * *");
    }
    SetScheduleEffect("0 * * * *");
    Said(ps, TRun, [SetSchedule("0 * * * *")], (s: Slice) => s.(schedule := "0 * * * *"));
  }

  /** run every N minutes */
  lemma EveryMinutesLine(n: nat)
    requires n <= MAX_INT64
    ensures Makes(P.LineText([P.Word("run"), P.Word("every"), P.Num(n), P.Word("minutes")]),
                  (s: Slice) => s.(schedule := "*/" + Itoa(n) + " * * * *"))
  {
    hide PieceOk, TokOf, Lower, V.Lettered, V.Lowered, Makes, P.LineText, ApplyAll, Comes, PiecesOk, ToksOf,
      PlainEnglishToCron, JoinWith, Values, P.Num, Itoa;
    V.RunReads(); V.EveryReads(); V.MinutesReads(); NumTok(n); NumVal(n);
    var ps := [P.Word("run"), P.Word("every"), P.Num(n), P.Word("minutes")];
    var cron := "*/" + Itoa(n) + " * * * *";
    Pieces4(ps);
    forall s, nl: Token | SameTokens(s, ToksOf(ps)) && nl.ty.TNewline? ensures Comes(s, nl, [SetSchedule(cron)]) {
      Joined(s[2..]);
      MinutesCron(n);
      EveryHandled(s, nl, Itoa(n) + " " + "minutes", cron);
    }
    SetScheduleEffect(cron);
    Said(ps, TRun, [SetSchedule(cron)], (s: Slice) => s.(schedule := cron));
  }

  lemma NumVal(n: nat)
    requires n <= MAX_INT64
    ensures TokOf(P.Num(n)).val == Itoa(n)
  {
    hide Keyword, Itoa;
    NumTok(n);
    PieceTok(P.Num(n));
  }

  /** run every day at Nam */
  lemma DailyLine(hour: nat, pm: bool)
    requires 1 <= hour <= 12
    ensures Makes(P.LineText([P.Word("run"), P.Word("every"), P.Word("day"), P.Word("at"),
                              P.Word(P.HourText(hour, pm))]),
                  (s: Slice) => s.(schedule := "0 " + Itoa(P.Hour24(hour, pm)) + " * * *"))
  {
    V.DayReads();
    DailyCron(hour, pm);
    DaySaid("day", TIdent, hour, pm, "0 " + Itoa(P.Hour24(hour, pm)) + " * * *");
  }

  lemma DaySaid(day: string, ty: TokenType, hour: nat, pm: bool, cron: string)
    requires V.Reads(day, ty)
    requires PlainEnglishToCron(day + " " + ("at " + P.HourText(hour, pm))) == Some(cron)
    ensures Makes(P.LineText([P.Word("run"), P.Word("every"), P.Word(day), P.Word("at"),
                              P.Word(P.HourText(hour, pm))]), (s: Slice) => s.(schedule := cron))
  {
    hide PieceOk, TokOf, Lower, V.Lettered, V.Lowered, Makes, P.LineText, ApplyAll, Comes, PiecesOk, ToksOf,
      PlainEnglishToCron, JoinWith, Values, P.HourText;
    V.RunReads(); V.EveryReads(); V.AtReads(); HourTok(hour, pm);
    var ps := [P.Word("run"), P.Word("every"), P.Word(day), P.Word("at"), P.Word(P.HourText(hour, pm))];
    Pieces5(ps);
    forall s, nl: Token | SameTokens(s, ToksOf(ps)) && nl.ty.TNewline? ensures Comes(s, nl, [SetSchedule(cron)]) {
      Joined(s[2..]);
      assert "at" + " " + P.HourText(hour, pm) == "at " + P.HourText(hour, pm);
      EveryHandled(s, nl, day + " " + ("at " + P.HourText(hour, pm)), cron);
    }
    SetScheduleEffect(cron);
    Said(ps, TRun, [SetSchedule(cron)], (s: Slice) => s.(schedule := cron));
  }

  lemma WeeklySaid(day: string, n: nat, digit: string, hour: nat, pm: bool)
    requires V.Reads(day, TIdent) && Names(day, n) && digit == Itoa(n) && 1 <= hour <= 12
    ensures Makes(P.LineText([P.Word("run"), P.Word("every"), P.Word(day), P.Word("at"),
                              P.Word(P.HourText(hour, pm))]),
                  (s: Slice) => s.(schedule := "0 " + Itoa(P.Hour24(hour, pm)) + " * * " + digit))
  {
    hide Names, V.Reads, PlainEnglishToCron, Makes, Itoa, P.Hour24, P.HourText, P.LineText;
    WeeklyCron(day, n, hour, pm);
    DaySaid(day, TIdent, hour, pm, "0 " + Itoa(P.Hour24(hour, pm)) + " * * " + digit);
  }

  lemma SundayLine(hour: nat, pm: bool)
    requires 1 <= hour <= 12
    ensures Makes(P.LineText([P.Word("run"), P.Word("every"), P.Word("sunday"), P.Word("at"),
                              P.Word(P.HourText(hour, pm))]),
                  (s: Slice) => s.(schedule := "0 " + Itoa(P.Hour24(hour, pm)) + " * * " + "0"))
  {
    hide Names, V.Reads, Makes, P.Hour24, P.HourText, P.LineText;
    V.SundayReads();
    Sunday();
    WeeklySaid("sunday", 0, "0", hour, pm);
  }

  lemma MondayLine(hour: nat, pm: bool)
    requires 1 <= hour <= 12
    ensures Makes(P.LineText([P.Word("run"), P.Word("every"), P.Word("monday"), P.Word("at"),
                              P.Word(P.HourText(hour, pm))]),
                  (s: Slice) => s.(schedule := "0 " + Itoa(P.Hour24(hour, pm)) + " * * " + "1"))
  {
    hide Names, V.Reads, Makes, P.Hour24, P.HourText, P.LineText;
    V.MondayReads();
    Monday();
    WeeklySaid("monday", 1, "1", hour, pm);
  }

  lemma TuesdayLine(hour: nat, pm: bool)
    requires 1 <= hour <= 12
    ensures Makes(P.LineText([P.Word("run"), P.Word("every"), P.Word("tuesday"), P.Word("at"),
                              P.Word(P.HourText(hour, pm))]),
                  (s: Slice) => s.(schedule := "0 " + Itoa(P.Hour24(hour, pm)) + " * * " + "2"))
  {
    hide Names, V.Reads, Makes, P.Hour24, P.HourText, P.LineText;
    V.TuesdayReads();
    Tuesday();
    WeeklySaid("tuesday", 2, "2", hour, pm);
  }

  lemma WednesdayLine(hour: nat, pm: bool)
    requires 1 <= hour <= 12
    ensures Makes(P.LineText([P.Word("run"), P.Word("every"), P.Word("wednesday"), P.Word("at"),
                              P.Word(P.HourText(hour, pm))]),
                  (s: Slice) => s.(schedule := "0 " + Itoa(P.Hour24(hour, pm)) + " * * " + "3"))
  {
    hide Names, V.Reads, Makes, P.Hour24, P.HourText, P.LineText;
    V.WednesdayReads();
    Wednesday();
    WeeklySaid("wednesday", 3, "3", hour, pm);
  }

  lemma ThursdayLine(hour: nat, pm: bool)
    requires 1 <= hour <= 12
    ensures Makes(P.LineText([P.Word("run"), P.Word("every"), P.Word("thursday"), P.Word("at"),
                              P.Word(P.HourText(hour, pm))]),
                  (s: Slice) => s.(schedule := "0 " + Itoa(P.Hour24(hour, pm)) + " * * " + "4"))
  {
    hide Names, V.Reads, Makes, P.Hour24, P.HourText, P.LineText;
    V.ThursdayReads();
    Thursday();
    WeeklySaid("thursday", 4, "4", hour, pm);
  }

  lemma FridayLine(hour: nat, pm: bool)
    requires 1 <= hour <= 12
    ensures Makes(P.LineText([P.Word("run"), P.Word("every"), P.Word("friday"), P.Word("at"),
                              P.Word(P.HourText(hour, pm))]),
                  (s: Slice) => s.(schedule := "0 " + Itoa(P.Hour24(hour, pm)) + " * * " + "5"))
  {
    hide Names, V.Reads, Makes, P.Hour24, P.HourText, P.LineText;
    V.FridayReads();
    Friday();
    WeeklySaid("friday", 5, "5", hour, pm);
  }

  lemma SaturdayLine(hour: nat, pm: bool)
    requires 1 <= hour <= 12
    ensures Makes(P.LineText([P.Word("run"), P.Word("every"), P.Word("saturday"), P.Word("at"),
                              P.Word(P.HourText(hour, pm))]),
                  (s: Slice) => s.(schedule := "0 " + Itoa(P.Hour24(hour, pm)) + " * * " + "6"))
  {
    hide Names, V.Reads, Makes, P.Hour24, P.HourText, P.LineText;
    V.SaturdayReads();
    Saturday();
    WeeklySaid("saturday", 6, "6", hour, pm);
  }
}
