/** What Build and the recipe parser put into a plan of their own accord, against what Validate asks of it:
    the variables that wiring adds, and the schedules that are said in words
    (internal/plan/build.go:562-629, internal/recipe/parser.go:1781-1855, internal/plan/validate.go). */
module BuildLaws {
  import opened Ast
  import opened Build
  import opened Schedules
  import opened Validate
  import Plan
  import Text

  // ---- Variables ----

  /** Whose variable a need is wired to: databases of one engine family share a name, a need without a
      known engine has its own. */
  function OwnerOf(engine: string, need: string): string {
    if engine == "postgres" || engine == "mysql" then "database"
    else if engine == "mongo" || engine == "redis" || engine == "memcached" then engine
    else need
  }

  function EngineFor(need: string, recipe: seq<Slice>): string {
    RecipeIndexLast(recipe, need);
    if need in RecipeIndex(recipe) then recipe[RecipeIndex(recipe)[need]].engine else ""
  }

  lemma KnownVariables()
    ensures UrlVariable("database") == "DATABASE_URL" && UrlVariable("mongo") == "MONGO_URL"
    ensures UrlVariable("redis") == "REDIS_URL" && UrlVariable("memcached") == "MEMCACHED_URL"
  {
  }

  /** Every wired variable is the URL variable of its owner. */
  lemma WiredVariable(need: string, plan: seq<Plan.Slice>, recipe: seq<Slice>, app: string)
    requires Wire(need, plan, recipe, app).Some?
    ensures Wire(need, plan, recipe, app).value.0 == UrlVariable(OwnerOf(EngineFor(need, recipe), need))
  {
    hide UrlVariable, RecipeIndex, PlanIndex;
    KnownVariables();
  }

  lemma UpperInjective(c: char, d: char)
    requires NameChar(c) && NameChar(d) && UpperChar(c) == UpperChar(d)
    ensures c == d
  {
  }

  lemma UrlVariableInjective(a: string, b: string)
    requires ValidSliceName(a) && ValidSliceName(b) && UrlVariable(a) == UrlVariable(b)
    ensures a == b
  {
    assert |a| == |b|;
    forall i | 0 <= i < |a| ensures a[i] == b[i] {
      assert UpperChar(a[i]) == UrlVariable(a)[i] == UrlVariable(b)[i] == UpperChar(b[i]);
      UpperInjective(a[i], b[i]);
    }
  }

  lemma OwnerValid(engine: string, need: string)
    requires ValidSliceName(need)
    ensures ValidSliceName(OwnerOf(engine, need))
  {
  }

  /** Two needs are wired to one variable, so that the later is dropped, exactly if they have one owner:
      two databases of a family, or a slice that has the name of a family. */
  lemma SameVariable(a: string, b: string, plan: seq<Plan.Slice>, recipe: seq<Slice>, app: string)
    requires ValidSliceName(a) && ValidSliceName(b)
    requires Wire(a, plan, recipe, app).Some? && Wire(b, plan, recipe, app).Some?
    ensures Wire(a, plan, recipe, app).value.0 == Wire(b, plan, recipe, app).value.0 <==>
              OwnerOf(EngineFor(a, recipe), a) == OwnerOf(EngineFor(b, recipe), b)
  {
    hide Wire, UrlVariable, OwnerOf, ValidSliceName;
    WiredVariable(a, plan, recipe, app);
    WiredVariable(b, plan, recipe, app);
    var ownerA, ownerB := OwnerOf(EngineFor(a, recipe), a), OwnerOf(EngineFor(b, recipe), b);
    OwnerValid(EngineFor(a, recipe), a);
    OwnerValid(EngineFor(b, recipe), b);
    if UrlVariable(ownerA) == UrlVariable(ownerB) {
      UrlVariableInjective(ownerA, ownerB);
    }
  }

  lemma UrlVariableValid(name: string)
    requires ValidSliceName(name)
    ensures ValidEnvKey(UrlVariable(name))
  {
    forall i | 0 <= i < |name| ensures 'A' <= UpperChar(name[i]) <= 'Z' || '0' <= UpperChar(name[i]) <= '9' ||
                                       UpperChar(name[i]) == '_'
    {
      assert NameChar(name[i]);
    }
  }

  /** Wiring never makes an environment that Validate rejects out of one that it accepts. */
  lemma WiredKeysValid(s: Plan.Slice, plan: seq<Plan.Slice>, recipe: seq<Slice>, app: string)
    requires forall t :: t in plan ==> ValidSliceName(t.name)
    ensures (forall k :: k in Wired(s, plan, recipe, app).env ==> ValidEnvKey(k)) <==>
            (forall k :: k in s.env ==> ValidEnvKey(k))
  {
    hide WireEnv, Wire, ValidEnvKey, ValidSliceName;
    var out := Wired(s, plan, recipe, app).env;
    forall k | k in s.env ensures k in out {
      WiringAdds(s.env, s.needs, plan, recipe, app, k);
    }
    forall k | k in out && k !in s.env ensures ValidEnvKey(k) {
      WiringAdds(s.env, s.needs, plan, recipe, app, k);
      var i :| 0 <= i < |s.needs| && Wire(s.needs[i], plan, recipe, app) == Some((k, out[k]));
      WireValid(s.needs[i], plan, recipe, app);
    }
  }

  lemma WireValid(need: string, plan: seq<Plan.Slice>, recipe: seq<Slice>, app: string)
    requires forall t :: t in plan ==> ValidSliceName(t.name)
    requires Wire(need, plan, recipe, app).Some?
    ensures ValidEnvKey(Wire(need, plan, recipe, app).value.0)
  {
    hide UrlVariable, RecipeIndex, OwnerOf, ValidEnvKey, ValidSliceName, EngineWire, PortWire;
    PlanIndexLast(plan, need);
    assert plan[PlanIndex(plan)[need]] in plan;
    WiredVariable(need, plan, recipe, app);
    OwnerValid(EngineFor(need, recipe), need);
    UrlVariableValid(OwnerOf(EngineFor(need, recipe), need));
  }

  // ---- Schedules ----

  ghost predicate OneField(w: string) { w != "" && forall i :: 0 <= i < |w| ==> !Separates(w[i]) }

  lemma {:induction false} FieldThen(w: string, rest: string, inWord: bool)
    requires OneField(w)
    ensures FieldCount(w + " " + rest, inWord) == (if inWord then 0 else 1) + FieldCount(rest, false)
    decreases |w|
  {
    var s := w + " " + rest;
    assert s[0] == w[0];
    assert s[1..] == w[1..] + " " + rest;
    if |w| == 1 {
      assert s[1..] == " " + rest;
      assert (" " + rest)[1..] == rest;
    } else {
      FieldThen(w[1..], rest, true);
    }
  }

  lemma {:induction false} LastField(w: string, inWord: bool)
    requires OneField(w)
    ensures FieldCount(w, inWord) == if inWord then 0 else 1
    decreases |w|
  {
    if |w| > 1 { LastField(w[1..], true); }
  }

  lemma FiveFields(a: string, b: string, c: string, d: string, e: string)
    requires OneField(a) && OneField(b) && OneField(c) && OneField(d) && OneField(e)
    ensures FieldCount(a + " " + (b + " " + (c + " " + (d + " " + e))), false) == 5
  {
    hide OneField, FieldCount;
    FieldThen(a, b + " " + (c + " " + (d + " " + e)), false);
    FieldThen(b, c + " " + (d + " " + e), false);
    FieldThen(c, d + " " + e, false);
    FieldThen(d, e, false);
    LastField(e, false);
  }

  lemma Untrimmed(s: string)
    requires s != "" && !Text.IsSpace(s[0]) && !Text.IsSpace(s[|s| - 1])
    ensures Text.TrimSpace(s) == s
  {
  }

  lemma CronOfFields(s: string, a: string, b: string, c: string, d: string, e: string)
    requires OneField(a) && OneField(b) && OneField(c) && OneField(d) && OneField(e)
    requires s == a + " " + (b + " " + (c + " " + (d + " " + e)))
    requires !Text.IsSpace(a[0]) && !Text.IsSpace(e[|e| - 1])
    ensures ValidCron(s)
  {
    hide OneField, FieldCount;
    assert a != "" && e != "" by { NotEmpty(a); NotEmpty(e); }
    assert s[0] == a[0] && s[|s| - 1] == e[|e| - 1];
    Untrimmed(s);
    FiveFields(a, b, c, d, e);
  }

  lemma NotEmpty(w: string)
    requires OneField(w)
    ensures w != ""
  {
  }

  lemma DecimalField(n: int)
    ensures OneField(Text.Decimal(n)) && !Text.IsSpace(Text.Decimal(n)[|Text.Decimal(n)| - 1])
  {
    hide Text.Itoa;
  }

  lemma StarField()
    ensures OneField("*") && OneField("0") && !Text.IsSpace('*') && !Text.IsSpace('0')
  {
  }

  lemma DailyCron(hour: int, last: string)
    requires OneField(last) && !Text.IsSpace(last[|last| - 1])
    ensures ValidCron("0 " + Text.Decimal(hour) + " * * " + last)
  {
    hide ValidCron, Text.Decimal, OneField;
    NotEmpty(last);
    DecimalField(hour);
    StarField();
    var h := Text.Decimal(hour);
    assert "0 " + h + " * * " + last == "0" + " " + (h + " " + ("*" + " " + ("*" + " " + last)));
    CronOfFields("0 " + h + " * * " + last, "0", h, "*", "*", last);
  }

  lemma HourCron()
    ensures ValidCron("0 * * * *")
  {
    hide ValidCron;
    StarField();
    assert "0 * * * *" == "0" + " " + ("*" + " " + ("*" + " " + ("*" + " " + "*")));
    CronOfFields("0 * * * *", "0", "*", "*", "*", "*");
  }

  lemma NumberField(w: string)
    requires Text.Atoi(w).Some?
    ensures OneField("*/" + w) && !Text.IsSpace('*')
  {
    var signed := w[0] == '-' || w[0] == '+';
    var digits := if signed then w[1..] else w;
    forall i | 0 <= i < |"*/" + w| ensures !Separates(("*/" + w)[i]) {
      if i >= 2 {
        assert ("*/" + w)[i] == w[i - 2];
        if !signed || i > 2 { assert w[i - 2] == digits[if signed then i - 3 else i - 2]; }
      }
    }
  }

  lemma MinutesCron(n: string)
    requires Text.Atoi(n).Some?
    ensures ValidCron("*/" + n + " * * * *")
  {
    hide ValidCron, Text.Atoi, OneField;
    StarField();
    NumberField(n);
    var w := "*/" + n;
    assert w[0] == '*';
    assert w + " * * * *" == w + " " + ("*" + " " + ("*" + " " + ("*" + " " + "*")));
    CronOfFields(w + " * * * *", w, "*", "*", "*", "*");
  }

  /** Each schedule in words that the recipe parser understands is one that Validate accepts. */
  lemma WordsMakeCron(words: string)
    requires PlainEnglishToCron(words).Some?
    ensures ValidCron(PlainEnglishToCron(words).value)
  {
    hide ValidCron, Text.TrimSpace, Text.Lower, Text.Atoi, Text.HasSuffix, Text.FirstField, Text.Decimal, Weekday,
      ParseTimeOfDay;
    var text := Text.TrimSpace(Text.Lower(words));
    var hour := ParseTimeOfDay(text);
    if "day" <= text {
      StarField();
      DailyCron(hour.value, "*");
      assert "0 " + Text.Decimal(hour.value) + " * * " + "*" == "0 " + Text.Decimal(hour.value) + " * * *";
    } else if text == "hour" {
      HourCron();
    } else if Text.HasSuffix(text, "minutes") && Text.Atoi(Text.FirstField(text)).Some? {
      MinutesCron(Text.FirstField(text));
    } else {
      DecimalField(Weekday(text).value);
      DailyCron(hour.value, Text.Decimal(Weekday(text).value));
    }
  }
}
