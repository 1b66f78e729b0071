/** Parsing the recipe text that the importer writes gives the slices that it converts services to
    (internal/importer/compose.go:130-229). */
module ImportRoundTrip {
  import opened Ast
  import opened Tokens
  import opened Text
  import opened Lexer
  import opened Edits
  import opened Directives
  import opened Sections
  import opened Importer
  import opened ImportLines
  import R = Recipes

  // ---- Several lines ----

  function LineBreak(n: int, line: string): Token { Token(TNewline, "\n", n, |line| + 1) }

  /** Tokens of lines that all end in a line break. */
  function LexedLines(lines: seq<string>, first: int): Lexed {
    if lines == [] then Lexed([], [])
    else Join(Join(LexLine(lines[0], first), Lexed([LineBreak(first, lines[0])], [])),
              LexedLines(lines[1..], first + 1))
  }

  lemma JoinAssoc(a: Lexed, b: Lexed, c: Lexed)
    ensures Join(Join(a, b), c) == Join(a, Join(b, c))
  {
    assert (a.tokens + b.tokens) + c.tokens == a.tokens + (b.tokens + c.tokens);
    assert (a.errs + b.errs) + c.errs == a.errs + (b.errs + c.errs);
  }

  lemma JoinNothing(a: Lexed)
    ensures Join(Lexed([], []), a) == a && Join(a, Lexed([], [])) == a
  {
  }

  lemma {:induction false} LexedConcat(a: seq<string>, b: seq<string>, first: int)
    ensures LexedLines(a + b, first) == Join(LexedLines(a, first), LexedLines(b, first + |a|))
  {
    hide Join, LexLine;
    if a == [] {
      assert a + b == b;
      JoinNothing(LexedLines(b, first));
    } else {
      assert (a + b)[1..] == a[1..] + b;
      LexedConcat(a[1..], b, first + 1);
      JoinAssoc(Join(LexLine(a[0], first), Lexed([LineBreak(first, a[0])], [])),
                LexedLines(a[1..], first + 1), LexedLines(b, first + |a|));
    }
  }

  lemma {:induction false} LexedThenEnd(lines: seq<string>, first: int)
    ensures LexLines(lines + [""], first) ==
            Join(LexedLines(lines, first), Lexed([Token(TEOF, "", first + |lines|, 1)], []))
  {
    hide Join, LexLine;
    if lines == [] {
      assert lines + [""] == [""];
      assert LexLine("", first) == Lexed([], []) by { EmptyLexed(first); }
      JoinNothing(Lexed([Token(TEOF, "", first, 1)], []));
    } else {
      assert (lines + [""])[1..] == lines[1..] + [""];
      LexedThenEnd(lines[1..], first + 1);
      JoinAssoc(Join(LexLine(lines[0], first), Lexed([LineBreak(first, lines[0])], [])),
                LexedLines(lines[1..], first + 1), Lexed([Token(TEOF, "", first + |lines|, 1)], []));
    }
  }

  lemma EmptyLexed(n: int)
    ensures LexLine("", n) == Lexed([], [])
  {
  }

  ghost predicate Unbroken(lines: seq<string>) { forall l :: l in lines ==> '\n' !in l }

  lemma BreakAt(line: string, rest: string)
    requires '\n' !in line
    ensures IndexOf(line + "\n" + rest, '\n') == |line|
  {
    var s := line + "\n" + rest;
    assert s[|line|] == '\n';
    assert forall i :: 0 <= i < |line| ==> s[i] == line[i];
  }

  lemma SplitBreak(line: string, rest: string)
    requires '\n' !in line
    ensures SplitLines(line + "\n" + rest) == [line] + SplitLines(rest)
  {
    hide IndexOf;
    var s := line + "\n" + rest;
    BreakAt(line, rest);
    assert s[..|line|] == line;
    assert s[|line| + 1..] == rest;
  }

  lemma {:induction false} SplitUnlines(lines: seq<string>)
    requires Unbroken(lines)
    ensures SplitLines(Unlines(lines)) == lines + [""]
  {
    hide SplitLines;
    if lines == [] {
      SplitNothing();
      assert lines + [""] == [""];
    } else {
      assert lines[0] in lines;
      SplitBreak(lines[0], Unlines(lines[1..]));
      SplitUnlines(lines[1..]);
      assert [lines[0]] + (lines[1..] + [""]) == lines + [""];
    }
  }

  lemma SplitNothing()
    ensures SplitLines("") == [""]
  {
  }

  /** As the body of a section, lines come to these edits and nothing else. */
  ghost predicate BodyReads(lines: seq<string>, first: int, edits: seq<Edit>) {
    var l := LexedLines(lines, first);
    l.errs == [] && Lines(l.tokens) && Section(l.tokens, false) == Body([], edits, [], false)
  }

  ghost predicate BodyMeans(lines: seq<string>, edits: seq<Edit>) {
    Unbroken(lines) && forall first :: BodyReads(lines, first, edits)
  }

  lemma NoBody()
    ensures BodyMeans([], [])
  {
  }

  lemma LineBody(line: string, edits: seq<Edit>)
    requires LineMeans(line, edits)
    ensures BodyMeans([line], edits)
  {
    hide LexLine, Section;
    forall first ensures BodyReads([line], first, edits) {
      assert LineReads(line, first, LineBreak(first, line), edits);
      assert LexedLines([line][1..], first + 1) == Lexed([], []);
      var l := LexLine(line, first);
      assert l.tokens + [LineBreak(first, line)] + [] == l.tokens + [LineBreak(first, line)];
    }
  }

  lemma BodyConcat(a: seq<string>, b: seq<string>, ea: seq<Edit>, eb: seq<Edit>)
    requires BodyMeans(a, ea) && BodyMeans(b, eb)
    ensures BodyMeans(a + b, ea + eb)
  {
    hide LexLine, Section, LexedLines, Lines;
    forall first ensures BodyReads(a + b, first, ea + eb) {
      assert BodyReads(a, first, ea) && BodyReads(b, first + |a|, eb);
      LexedConcat(a, b, first);
      var s, t := LexedLines(a, first).tokens, LexedLines(b, first + |a|).tokens;
      SectionConcat(s, t, false);
      LinesConcat(s, t);
    }
  }

  lemma LinesConcat(a: seq<Token>, b: seq<Token>)
    requires Lines(a) && Lines(b)
    ensures Lines(a + b)
  {
    if b == [] { assert a + b == a; }
  }

  // ---- The fragment ----

  predicate NameChar(c: char) { 'a' <= c <= 'z' || 'A' <= c <= 'Z' || '0' <= c <= '9' || c in "._-" }

  /** A service name that does not come out as the header of a list. */
  predicate ServiceName(n: string) { n != "" && (forall c :: c in n ==> NameChar(c)) && Lower(n) != "crds" }

  predicate ImageOk(image: string) {
    match EngineOf(image) case None => ImageWord(image) case Some(e) => PlainAmount(e.version)
  }

  /** A numeric container port, from one. */
  predicate PortOk(spec: string) { Digits(ContainerPort(spec)) && DigitsValue(ContainerPort(spec)) > 0 }

  ghost predicate ServiceOk(svc: Service) {
    svc.image != "" ==>
      && ImageOk(svc.image)
      && (forall p :: p in svc.ports ==> PortOk(p))
      && (Replicated(svc.replicas) ==> svc.replicas.value <= MAX_INT64)
      && (Restarts(svc.restart) ==> RestartWord(svc.restart))
      && NeedWordsOk(svc.needs)
      && (forall e :: e in svc.env ==> EnvWord(e))
  }

  ghost predicate InFragment(n: Named) { ServiceName(n.name) && ServiceOk(n.service) }

  /** The parser keeps the last port, the converter the first. */
  predicate PortsAgree(ports: seq<string>) {
    ports != [] ==> PortNumber(ports[0]) == PortNumber(ports[|ports| - 1])
  }

  // ---- Bodies ----

  function ImageEdits(image: string): seq<Edit> {
    match EngineOf(image)
    case None => [SetImage(image)]
    case Some(e) =>
      if HasStorage(e.name) then [SetEngine(e.name), SetVersion(e.version), SetStorage("10Gi")]
      else [SetEngine(e.name), SetVersion(e.version)]
  }

  lemma ImageReads(image: string)
    requires ImageOk(image)
    ensures LineMeans(ImageLine(image), ImageEdits(image))
  {
    hide ImageWord, PlainAmount, LineMeans, EngineOf;
    match EngineOf(image) {
      case None => FromImageReads(image);
      case Some(e) =>
        if HasStorage(e.name) {
          StorageReads(e.name, e.version);
        } else {
          CacheReads(e.version);
          assert "  " + "redis" + " " + e.version + "" == "  redis " + e.version;
        }
    }
  }

  function PortEdit(spec: string): seq<Edit> {
    if IsPublic(spec) then [SetPublic, SetPort(PortNumber(spec))] else [SetPort(PortNumber(spec))]
  }

  function PortEdits(ports: seq<string>): seq<Edit> {
    if ports == [] then [] else PortEdits(ports[..|ports| - 1]) + PortEdit(ports[|ports| - 1])
  }

  lemma {:induction false} DigitsLead(d: string)
    requires AllDigits(d)
    ensures LeadingDigits(d) == d
  {
    if d != "" {
      assert IsDigit(d[0]);
      DigitsLead(d[1..]);
    }
  }

  /** Within 64 bits, the importer's arithmetic is exact. */
  lemma {:induction false} PortValueIs(d: string)
    requires AllDigits(d) && DigitsValue(d) <= MAX_INT64
    ensures PortValue(d) == DigitsValue(d)
  {
    if d != "" { PortValueIs(d[..|d| - 1]); }
  }

  lemma PortReads(spec: string)
    requires PortOk(spec)
    ensures LineMeans(PortLine(spec), PortEdit(spec)) && PortNumber(spec) == DigitsValue(ContainerPort(spec))
  {
    hide LineMeans, ContainerPort, IsPublic;
    var d := ContainerPort(spec);
    DigitsLead(d);
    PortValueIs(d);
    if IsPublic(spec) { OpenPublicReads(d); } else { OnPortReads(d); }
  }

  lemma {:induction false} PortsRead(ports: seq<string>)
    requires forall p :: p in ports ==> PortOk(p)
    ensures BodyMeans(PortLines(ports), PortEdits(ports))
  {
    hide BodyMeans, LineMeans, PortOk, PortLine, PortEdit;
    if ports == [] {
      NoBody();
    } else {
      var init, last := ports[..|ports| - 1], ports[|ports| - 1];
      PortsRead(init);
      assert last in ports;
      PortReads(last);
      LineBody(PortLine(last), PortEdit(last));
      BodyConcat(PortLines(init), [PortLine(last)], PortEdits(init), PortEdit(last));
    }
  }

  function ReplicaEdits(replicas: Option<int>): seq<Edit> {
    if Replicated(replicas) then [SetReplicas(replicas.value)] else []
  }

  function RestartEdits(restart: string): seq<Edit> {
    if Restarts(restart) then [SetRestartPolicy(restart)] else []
  }

  function EnvEdits(env: seq<(string, string)>): seq<Edit> {
    if env == [] then [] else EnvEdits(env[..|env| - 1]) + [SetEnv(env[|env| - 1].0, env[|env| - 1].1)]
  }

  lemma {:induction false} EnvsRead(env: seq<(string, string)>)
    requires forall e :: e in env ==> EnvWord(e)
    ensures BodyMeans(EnvLines(env), EnvEdits(env))
  {
    hide BodyMeans, LineMeans, EnvWord, EnvLine;
    if env == [] {
      NoBody();
    } else {
      var init, last := env[..|env| - 1], env[|env| - 1];
      EnvsRead(init);
      assert last in env;
      EnvReads(last);
      LineBody(EnvLine(last), [SetEnv(last.0, last.1)]);
      BodyConcat(EnvLines(init), [EnvLine(last)], EnvEdits(init), [SetEnv(last.0, last.1)]);
    }
  }

  function ServiceEdits(svc: Service): seq<Edit> {
    if svc.image == "" then []
    else
      ImageEdits(svc.image) + PortEdits(svc.ports) + ReplicaEdits(svc.replicas) + RestartEdits(svc.restart)
      + NeedEdits(svc.needs) + EnvEdits(svc.env)
  }

  lemma ReplicasRead(replicas: Option<int>)
    requires Replicated(replicas) ==> replicas.value <= MAX_INT64
    ensures BodyMeans(ReplicaLines(replicas), ReplicaEdits(replicas))
  {
    hide BodyMeans, LineMeans;
    NoBody();
    if Replicated(replicas) {
      CopiesReads(replicas.value);
      LineBody("  run " + Decimal(replicas.value) + " copies", [SetReplicas(replicas.value)]);
    }
  }

  lemma RestartsRead(restart: string)
    requires Restarts(restart) ==> RestartWord(restart)
    ensures BodyMeans(RestartLines(restart), RestartEdits(restart))
  {
    hide BodyMeans, LineMeans, RestartWord;
    NoBody();
    if Restarts(restart) {
      RestartReads(restart);
      LineBody("  restart " + restart, [SetRestartPolicy(restart)]);
    }
  }

  lemma NeedLinesRead(needs: seq<string>)
    requires NeedWordsOk(needs)
    ensures BodyMeans(NeedLines(needs), NeedEdits(needs))
  {
    hide BodyMeans, LineMeans, NeedWordsOk, JoinWith;
    NoBody();
    if needs != [] {
      NeedsRead(needs);
      LineBody("  needs " + JoinWith(needs, " and "), NeedEdits(needs));
    }
  }

  lemma ServiceReads(svc: Service)
    requires ServiceOk(svc)
    ensures BodyMeans(ServiceLines(svc), ServiceEdits(svc))
  {
    hide BodyMeans, LineMeans, ImageOk, PortOk, EnvWord, RestartWord, NeedWordsOk, ImageLine, PortLines, ReplicaLines,
      RestartLines, NeedLines, EnvLines, ImageEdits, PortEdits, ReplicaEdits, RestartEdits, NeedEdits, EnvEdits;
    if svc.image == "" {
      WarningReads(svc.build);
      LineBody(WarningLine(svc.build), []);
    } else {
      var l, e := [ImageLine(svc.image)], ImageEdits(svc.image);
      ImageReads(svc.image);
      LineBody(ImageLine(svc.image), e);
      PortsRead(svc.ports);
      BodyConcat(l, PortLines(svc.ports), e, PortEdits(svc.ports));
      l, e := l + PortLines(svc.ports), e + PortEdits(svc.ports);
      ReplicasRead(svc.replicas);
      BodyConcat(l, ReplicaLines(svc.replicas), e, ReplicaEdits(svc.replicas));
      l, e := l + ReplicaLines(svc.replicas), e + ReplicaEdits(svc.replicas);
      RestartsRead(svc.restart);
      BodyConcat(l, RestartLines(svc.restart), e, RestartEdits(svc.restart));
      l, e := l + RestartLines(svc.restart), e + RestartEdits(svc.restart);
      NeedLinesRead(svc.needs);
      BodyConcat(l, NeedLines(svc.needs), e, NeedEdits(svc.needs));
      l, e := l + NeedLines(svc.needs), e + NeedEdits(svc.needs);
      EnvsRead(svc.env);
      BodyConcat(l, EnvLines(svc.env), e, EnvEdits(svc.env));
    }
  }

  // ---- Slices ----

  lemma ApplyOne(s: Slice, e: Edit)
    ensures ApplyAll(s, [e]) == Apply(s, e)
  {
    hide Apply;
    assert ApplyAll(s, [e][..0]) == s;
  }

  lemma ApplyNone(s: Slice)
    ensures ApplyAll(s, []) == s
  {
  }

  lemma ImageSet(s: Slice, v: string)
    ensures Apply(s, SetImage(v)) == s.(image := v)
  {
  }

  lemma EngineSet(s: Slice, v: string)
    ensures Apply(s, SetEngine(v)) == s.(engine := v)
  {
  }

  lemma VersionSet(s: Slice, v: string)
    ensures Apply(s, SetVersion(v)) == s.(version := v)
  {
  }

  lemma StorageSet(s: Slice, v: string)
    ensures Apply(s, SetStorage(v)) == s.(storage := v)
  {
  }

  lemma PortSet(s: Slice, n: int)
    ensures Apply(s, SetPort(n)) == s.(port := n)
  {
  }

  lemma PublicSet(s: Slice)
    ensures Apply(s, SetPublic) == s.(public := true)
  {
  }

  lemma ReplicasSet(s: Slice, n: int)
    ensures Apply(s, SetReplicas(n)) == s.(replicas := n)
  {
  }

  lemma RestartSet(s: Slice, v: string)
    ensures Apply(s, SetRestartPolicy(v)) == s.(restartPolicy := v)
  {
  }

  lemma NeedAdded(s: Slice, v: string)
    ensures Apply(s, AddNeed(v)) == s.(needs := s.needs + [v])
  {
  }

  lemma EnvSet(s: Slice, k: string, v: string)
    ensures Apply(s, SetEnv(k, v)) == s.(env := s.env[k := v])
  {
  }

  lemma EngineApplied(s: Slice, name: string, version: string)
    ensures ApplyAll(s, [SetEngine(name), SetVersion(version)]) == s.(engine := name, version := version)
  {
    hide ApplyAll, Apply;
    EngineSet(s, name);
    VersionSet(s.(engine := name), version);
    ApplyTwo(s, SetEngine(name), SetVersion(version));
  }

  lemma StorageApplied(s: Slice, name: string, version: string)
    ensures ApplyAll(s, [SetEngine(name), SetVersion(version), SetStorage("10Gi")]) ==
            s.(engine := name, version := version, storage := "10Gi")
  {
    hide ApplyAll, Apply;
    StorageSet(s.(engine := name, version := version), "10Gi");
    var two, size := [SetEngine(name), SetVersion(version)], SetStorage("10Gi");
    EngineApplied(s, name, version);
    ApplyConcat(s, two, [size]);
    assert two + [size] == [SetEngine(name), SetVersion(version), size];
    ApplyOne(s.(engine := name, version := version), size);
  }

  lemma ImageApplied(s: Slice, image: string)
    requires s.storage == ""
    ensures ApplyAll(s, ImageEdits(image)) == WithImage(s, image)
  {
    hide EngineOf, ApplyAll, Apply;
    ImageSet(s, image);
    match EngineOf(image) {
      case None => ApplyOne(s, SetImage(image));
      case Some(e) => EngineApplied(s, e.name, e.version); StorageApplied(s, e.name, e.version);
    }
  }

  lemma ApplyTwo(s: Slice, e: Edit, f: Edit)
    ensures ApplyAll(s, [e, f]) == Apply(Apply(s, e), f)
  {
    hide Apply, ApplyAll;
    ApplyConcat(s, [e], [f]);
    ApplyOne(s, e);
    ApplyOne(Apply(s, e), f);
    assert [e] + [f] == [e, f];
  }

  function LastPort(ports: seq<string>, d: int): int {
    if ports == [] then d else PortNumber(ports[|ports| - 1])
  }

  predicate SomePublic(ports: seq<string>) { exists i :: 0 <= i < |ports| && IsPublic(ports[i]) }

  lemma {:induction false} PortsApplied(s: Slice, ports: seq<string>)
    ensures ApplyAll(s, PortEdits(ports)) ==
            s.(port := LastPort(ports, s.port), public := s.public || SomePublic(ports))
  {
    hide ApplyAll, Apply, PortNumber, IsPublic;
    if ports == [] {
      ApplyNone(s);
    } else {
      var init, last := ports[..|ports| - 1], ports[|ports| - 1];
      PortsApplied(s, init);
      var t := ApplyAll(s, PortEdits(init));
      ApplyConcat(s, PortEdits(init), PortEdit(last));
      PublicSet(t);
      PortSet(t, PortNumber(last));
      PortSet(t.(public := true), PortNumber(last));
      if IsPublic(last) {
        ApplyTwo(t, SetPublic, SetPort(PortNumber(last)));
      } else {
        ApplyOne(t, SetPort(PortNumber(last)));
      }
      SomePublicSplits(ports);
    }
  }

  lemma SomePublicSplits(ports: seq<string>)
    requires ports != []
    ensures SomePublic(ports) <==> SomePublic(ports[..|ports| - 1]) || IsPublic(ports[|ports| - 1])
  {
    hide IsPublic;
    var init := ports[..|ports| - 1];
    assert forall i :: 0 <= i < |init| ==> init[i] == ports[i];
  }

  lemma PortsPositive(ports: seq<string>)
    requires forall p :: p in ports ==> PortOk(p)
    ensures forall i :: 0 <= i < |ports| ==> PortNumber(ports[i]) > 0
    ensures AnyPublic(ports) == SomePublic(ports)
    ensures ports != [] ==> FirstPort(ports) == PortNumber(ports[0])
  {
    hide PortOk, PortNumber, IsPublic;
    forall i | 0 <= i < |ports| ensures PortNumber(ports[i]) > 0 {
      assert ports[i] in ports;
      PortPositive(ports[i]);
    }
  }

  lemma PortPositive(spec: string)
    requires PortOk(spec)
    ensures PortNumber(spec) > 0
  {
    PortReads(spec);
  }

  lemma {:induction false} NeedsApplied(s: Slice, needs: seq<string>)
    ensures ApplyAll(s, NeedEdits(needs)) == s.(needs := s.needs + needs)
    decreases |needs|
  {
    hide ApplyAll, Apply;
    if needs == [] {
      ApplyNone(s);
      assert s.needs + [] == s.needs;
    } else {
      var t := s.(needs := s.needs + [needs[0]]);
      ApplyConcat(s, [AddNeed(needs[0])], NeedEdits(needs[1..]));
      ApplyOne(s, AddNeed(needs[0]));
      NeedAdded(s, needs[0]);
      NeedsApplied(t, needs[1..]);
      assert s.needs + [needs[0]] + needs[1..] == s.needs + needs;
    }
  }

  lemma {:induction false} EnvApplied(s: Slice, env: seq<(string, string)>)
    requires s.env == map[]
    ensures ApplyAll(s, EnvEdits(env)) == s.(env := EnvMap(env))
  {
    hide ApplyAll, Apply;
    if env == [] {
      ApplyNone(s);
    } else {
      var init, last := env[..|env| - 1], env[|env| - 1];
      EnvApplied(s, init);
      ApplyConcat(s, EnvEdits(init), [SetEnv(last.0, last.1)]);
      EnvSet(s.(env := EnvMap(init)), last.0, last.1);
      ApplyOne(s.(env := EnvMap(init)), SetEnv(last.0, last.1));
    }
  }

  lemma OptionsApplied(s: Slice, replicas: Option<int>, restart: string)
    requires s.replicas == 0 && s.restartPolicy == ""
    ensures ApplyAll(ApplyAll(s, ReplicaEdits(replicas)), RestartEdits(restart)) ==
            s.(replicas := if Replicated(replicas) then replicas.value else 0,
               restartPolicy := if Restarts(restart) then restart else "")
  {
    hide ApplyAll, Apply;
    ApplyNone(s);
    if Replicated(replicas) {
      ApplyOne(s, SetReplicas(replicas.value));
      ReplicasSet(s, replicas.value);
    }
    var t := ApplyAll(s, ReplicaEdits(replicas));
    ApplyNone(t);
    if Restarts(restart) {
      ApplyOne(t, SetRestartPolicy(restart));
      RestartSet(t, restart);
    }
  }

  lemma EditsApplied(s: Slice, svc: Service)
    requires svc.image != ""
    ensures ApplyAll(s, ServiceEdits(svc)) ==
            ApplyAll(ApplyAll(ApplyAll(ApplyAll(ApplyAll(ApplyAll(s, ImageEdits(svc.image)), PortEdits(svc.ports)),
              ReplicaEdits(svc.replicas)), RestartEdits(svc.restart)), NeedEdits(svc.needs)), EnvEdits(svc.env))
  {
    hide ApplyAll, ImageEdits, PortEdits, ReplicaEdits, RestartEdits, NeedEdits, EnvEdits;
    var e := ImageEdits(svc.image);
    ApplyConcat(s, e, PortEdits(svc.ports));
    e := e + PortEdits(svc.ports);
    ApplyConcat(s, e, ReplicaEdits(svc.replicas));
    e := e + ReplicaEdits(svc.replicas);
    ApplyConcat(s, e, RestartEdits(svc.restart));
    e := e + RestartEdits(svc.restart);
    ApplyConcat(s, e, NeedEdits(svc.needs));
    e := e + NeedEdits(svc.needs);
    ApplyConcat(s, e, EnvEdits(svc.env));
  }

  /** Up to the case of the name and the line, which only text has. */
  predicate SameUpToName(s: Slice, c: Slice) { s == c.(name := Lower(c.name), line := s.line) }

  predicate Agrees(svc: Service) { svc.image == "" || PortsAgree(svc.ports) }

  /** The edits of a service make its slice exactly if its first and last port are the same. */
  lemma ServiceSlice(n: Named, line: int)
    requires InFragment(n)
    ensures var s := ApplyAll(EmptySlice(Lower(Capitalize(n.name)), line), ServiceEdits(n.service));
            SameUpToName(s, Converted(n.name, n.service)) <==> Agrees(n.service)
  {
    hide ApplyAll, EngineOf, ImageEdits, PortEdits, ReplicaEdits, RestartEdits, NeedEdits, EnvEdits, PortNumber,
      PortOk, IsPublic, AnyPublic, SomePublic, Capitalize, ServiceName, ImageOk, RestartWord, NeedWordsOk, EnvWord;
    var svc := n.service;
    var s := EmptySlice(Lower(Capitalize(n.name)), line);
    if svc.image == "" {
      ApplyNone(s);
    } else {
      EditsApplied(s, svc);
      ImageApplied(s, svc.image);
      var s1 := WithImage(s, svc.image);
      PortsApplied(s1, svc.ports);
      PortsPositive(svc.ports);
      var s2 := s1.(port := LastPort(svc.ports, 0), public := SomePublic(svc.ports));
      OptionsApplied(s2, svc.replicas, svc.restart);
      var s3 := ApplyAll(ApplyAll(s2, ReplicaEdits(svc.replicas)), RestartEdits(svc.restart));
      NeedsApplied(s3, svc.needs);
      var s4 := s3.(needs := s3.needs + svc.needs);
      EnvApplied(s4, svc.env);
      assert [] + svc.needs == svc.needs;
    }
  }

  // ---- Headers ----

  lemma {:induction false} Untrimmed(s: string)
    requires s != "" && !IsSpace(s[0]) && !IsSpace(s[|s| - 1])
    ensures TrimSpace(s) == s
  {
  }

  lemma {:induction false} ColonAt(s: string, i: nat)
    requires i < |s| && s[i] == ':' && forall k :: 0 <= k < i ==> s[k] != ':'
    ensures IndexOf(s, ':') == i
  {
  }

  /** The name before its first letter is changed. */
  function Unreserved(name: string): string {
    if Lower(name) in ["app", "namespace", "images"] then name + "-svc" else name
  }

  lemma UnreservedChars(name: string)
    requires ServiceName(name)
    ensures Unreserved(name) != "" && forall c :: c in Unreserved(name) ==> NameChar(c)
    ensures Lower(Unreserved(name)) !in ["app", "namespace", "images", "crds"]
  {
    hide Lower, NameChar;
    SuffixChars();
    if Unreserved(name) != name { SuffixDiffers(name); }
  }

  lemma SuffixChars()
    ensures forall c :: c in "-svc" ==> NameChar(c)
  {
  }

  lemma SuffixDiffers(name: string)
    requires |name| in [3, 6, 9]
    ensures |Lower(name + "-svc")| in [7, 10, 13]
  {
  }

  lemma CapitalLower(n: string)
    requires n != "" && NameChar(n[0])
    ensures NameChar(UpperChar(n[0])) && Lower([UpperChar(n[0])] + n[1..]) == Lower(n)
  {
  }

  lemma CapitalizedChars(name: string)
    requires ServiceName(name)
    ensures Capitalize(name) != "" && forall c :: c in Capitalize(name) ==> NameChar(c)
    ensures Lower(Capitalize(name)) !in ["app", "namespace", "images", "crds"]
  {
    hide Lower, NameChar, UpperChar;
    UnreservedChars(name);
    var n := Unreserved(name);
    assert n[0] in n;
    CapitalLower(n);
    assert Capitalize(name) == [UpperChar(n[0])] + n[1..];
  }

  /** A header line is what its name and a colon are, and nothing else. */
  lemma HeaderShape(header: string)
    requires header != "" && forall c :: c in header ==> NameChar(c)
    ensures var line := header + ":";
            && TrimSpace(line) == line && TrimSpace(header) == header
            && IndexOf(line, ':') == |header| && IsHeader(line) && '\n' !in line
  {
    var line := header + ":";
    assert header[0] in header && header[|header| - 1] in header;
    forall k | 0 <= k < |header| ensures line[k] != ':' && !IsBlank(line[k]) && line[k] != '\n' {
      assert header[k] in header;
    }
    Untrimmed(line);
    Untrimmed(header);
    ColonAt(line, |header|);
  }

  lemma HeaderLexed(name: string, n: int)
    requires ServiceName(name)
    ensures var header := Capitalize(name);
            && '\n' !in header + ":"
            && LexLine(header + ":", n) == Lexed([Token(TSectionHeader, header, n, 1)], [])
  {
    hide Capitalize, ServiceName, TrimSpace, IndexOf, IsHeader, NameChar, Lower;
    CapitalizedChars(name);
    var header := Capitalize(name);
    var line := header + ":";
    HeaderShape(header);
    assert line[..|header|] == header && line[|header| + 1..] == "";
    assert header[0] in header && line[0] == header[0];
    assert line[0] != '#' by { NotHash(header[0]); }
    assert TrimSpace("") == "" by { NothingTrimmed(); }
  }

  lemma NotHash(c: char)
    requires NameChar(c)
    ensures c != '#'
  {
  }

  lemma NothingTrimmed()
    ensures TrimSpace("") == ""
  {
  }

  // ---- Sections ----

  ghost predicate Whole(toks: seq<Token>, r: Recipe, services: seq<Named>) {
    var p := R.Recipe(toks, r);
    && p.errs == [] && p.recipe == r.(slices := p.recipe.slices)
    && |p.recipe.slices| == |r.slices| + |services| && r.slices <= p.recipe.slices
    && forall i :: 0 <= i < |services| ==>
         (SameUpToName(p.recipe.slices[|r.slices| + i], Converted(services[i].name, services[i].service)) <==>
          Agrees(services[i].service))
  }

  ghost predicate SectionsParse(services: seq<Named>, first: int, end: Token, r: Recipe) {
    var l := LexedLines(SectionsLines(services), first);
    && l.errs == [] && Unbroken(SectionsLines(services))
    && StopsSection(SkipInsignificant(l.tokens + [end]))
    && Whole(l.tokens + [end], r, services)
  }

  /** The tokens of a section: an empty line, the header, and the body. */
  lemma SectionLexed(n: Named, first: int)
    requires InFragment(n)
    ensures var name := Capitalize(n.name);
            var body := LexedLines(ServiceLines(n.service), first + 2);
            var br2 := LineBreak(first + 1, name + ":");
            var head := [LineBreak(first, ""), Token(TSectionHeader, name, first + 1, 1), br2];
            LexedLines(SectionLines(n), first) == Lexed(head + body.tokens, body.errs)
  {
    hide LexLine, ServiceLines, Capitalize, ServiceName, ServiceOk;
    var lines := SectionLines(n);
    assert lines[1..][1..] == ServiceLines(n.service);
    EmptyLexed(first);
    HeaderLexed(n.name, first + 1);
  }

  lemma {:induction false} AllSectionsParse(services: seq<Named>, first: int, end: Token, r: Recipe)
    requires end.ty.TEOF? && forall n :: n in services ==> InFragment(n)
    ensures SectionsParse(services, first, end, r)
    decreases |services|
  {
    hide LexLine, ServiceLines, Capitalize, InFragment, Whole, LexedLines, SectionLines, Converted, R.Recipe;
    if services == [] {
      NoSections(first, end, r);
    } else {
      OneSection(services, first, end, r);
    }
  }

  lemma NoSections(first: int, end: Token, r: Recipe)
    requires end.ty.TEOF?
    ensures SectionsParse([], first, end, r)
  {
    assert LexedLines([], first).tokens + [end] == [end];
  }

  lemma {:induction false} OneSection(services: seq<Named>, first: int, end: Token, r: Recipe)
    requires end.ty.TEOF? && services != [] && forall n :: n in services ==> InFragment(n)
    ensures SectionsParse(services, first, end, r)
    decreases |services|, 0
  {
    hide LexLine, ServiceLines, Capitalize, InFragment, LexedLines, SectionLines, Converted, R.Recipe, Section,
      ApplyAll, ServiceEdits, R.AddSlice, SameUpToName, Agrees;
    var n, others := services[0], services[1..];
    assert n in services;
    var name := Capitalize(n.name);
    var header := Token(TSectionHeader, name, first + 1, 1);
    var br, br2 := LineBreak(first, ""), LineBreak(first + 1, name + ":");
    var body := LexedLines(ServiceLines(n.service), first + 2).tokens;
    var at := first + |SectionLines(n)|;
    var rest := LexedLines(SectionsLines(others), at).tokens + [end];
    SectionBody(n, first);
    SectionLexed(n, first);
    LexedConcat(SectionLines(n), SectionsLines(others), first);
    var toks := LexedLines(SectionsLines(services), first).tokens + [end];
    assert toks == [br] + ([header] + ([br2] + body) + rest);
    var edits := ServiceEdits(n.service);
    var r2 := R.AddSlice(header, edits, r);
    AllSectionsParse(others, at, end, r2);
    SectionRead(br, header, [br2] + body, rest, edits, r);
    SectionSlice(n, first + 1, r, edits);
    WholeExtends(toks, rest, r, r2, services);
  }

  /** The body of a service is what its edits say, also behind the line break of the header. */
  lemma SectionBody(n: Named, first: int)
    requires InFragment(n)
    ensures var br := LineBreak(first + 1, Capitalize(n.name) + ":");
            var body := [br] + LexedLines(ServiceLines(n.service), first + 2).tokens;
            Lines(body) && Section(body, false) == Body([], ServiceEdits(n.service), [], false)
    ensures LexedLines(ServiceLines(n.service), first + 2).errs == [] && Unbroken(SectionLines(n))
  {
    hide LexLine, ServiceLines, Capitalize, LexedLines, ServiceEdits, Lines, Step, Open;
    ServiceReads(n.service);
    assert BodyReads(ServiceLines(n.service), first + 2, ServiceEdits(n.service));
    var br := LineBreak(first + 1, Capitalize(n.name) + ":");
    var body := LexedLines(ServiceLines(n.service), first + 2).tokens;
    assert ([br] + body)[1..] == body;
    BreakLines(br);
    LinesConcat([br], body);
    HeaderLexed(n.name, first + 1);
  }

  lemma BreakLines(br: Token)
    requires br.ty.TNewline?
    ensures Lines([br])
  {
  }

  lemma SectionRead(br: Token, header: Token, body: seq<Token>, rest: seq<Token>, edits: seq<Edit>, r: Recipe)
    requires br.ty.TNewline? && header.ty.TSectionHeader? && Lines(body)
    requires Section(body, false) == Body([], edits, [], false) && StopsSection(SkipInsignificant(rest))
    ensures R.Recipe([br] + ([header] + body + rest), r) == R.Recipe(rest, R.AddSlice(header, edits, r))
    ensures StopsSection(SkipInsignificant([br] + ([header] + body + rest)))
  {
    hide Section, R.Recipe, R.AddSlice, Lines;
    var toks := [header] + body + rest;
    assert ([br] + toks)[1..] == toks;
    R.RecipeSkips([br] + toks, r);
    R.RecipeSkips(toks, r);
    R.SectionThenBoundary(header, body, rest, r);
  }

  lemma SectionSlice(n: Named, line: int, r: Recipe, edits: seq<Edit>)
    requires InFragment(n) && edits == ServiceEdits(n.service)
    ensures var r2 := R.AddSlice(Token(TSectionHeader, Capitalize(n.name), line, 1), edits, r);
            && r2 == r.(slices := r2.slices) && |r2.slices| == |r.slices| + 1 && r.slices <= r2.slices
            && (SameUpToName(r2.slices[|r.slices|], Converted(n.name, n.service)) <==> Agrees(n.service))
  {
    hide InFragment, Capitalize, ApplyAll, ServiceEdits, SameUpToName, Agrees, Converted;
    ServiceSlice(n, line);
  }

  lemma WholeExtends(toks: seq<Token>, rest: seq<Token>, r: Recipe, r2: Recipe, services: seq<Named>)
    requires services != [] && R.Recipe(toks, r) == R.Recipe(rest, r2) && Whole(rest, r2, services[1..])
    requires r2 == r.(slices := r2.slices) && |r2.slices| == |r.slices| + 1 && r.slices <= r2.slices
    requires SameUpToName(r2.slices[|r.slices|], Converted(services[0].name, services[0].service)) <==>
             Agrees(services[0].service)
    ensures Whole(toks, r, services)
  {
    hide R.Recipe, SameUpToName, Agrees, Converted;
    var slices := R.Recipe(toks, r).recipe.slices;
    forall i | 0 <= i < |services|
      ensures SameUpToName(slices[|r.slices| + i], Converted(services[i].name, services[i].service)) <==>
              Agrees(services[i].service)
    {
      if i > 0 {
        assert services[1..][i - 1] == services[i];
      } else {
        assert slices[|r.slices|] == r2.slices[|r.slices|];
      }
    }
  }

  // ---- The whole text ----

  lemma AppEnds(app: string)
    requires app != "" && forall c :: c in app ==> NameChar(c)
    ensures !IsSpace(app[0]) && !IsSpace(app[|app| - 1]) && '\n' !in app
  {
    hide NameChar, IsSpace;
    assert app[0] in app && app[|app| - 1] in app;
    NameCharPlain(app[0]);
    NameCharPlain(app[|app| - 1]);
    forall c | c in app ensures c != '\n' { NameCharPlain(c); }
  }

  lemma AppColon(app: string)
    ensures var line := "App: " + app;
            && IndexOf(line, ':') == 3 && line[..3] == "App" && line[4..] == " " + app
            && |line| == 5 + |app| && line[0] == 'A' && forall i :: 0 <= i < 3 ==> !IsBlank(line[i])
  {
    hide IndexOf;
    ColonAt("App: " + app, 3);
  }

  lemma AppShape(app: string)
    requires app != "" && forall c :: c in app ==> NameChar(c)
    ensures var line := "App: " + app;
            && '\n' !in line && TrimSpace(line) == line && TrimSpace(" " + app) == app
            && IndexOf(line, ':') == 3 && IsHeader(line) && line[..3] == "App" && line[4..] == " " + app
  {
    hide NameChar, IndexOf, TrimSpace;
    var line := "App: " + app;
    AppEnds(app);
    AppColon(app);
    assert line[|line| - 1] == app[|app| - 1] && !IsSpace('A') && !IsBlank('A');
    Untrimmed(line);
    TrimmedBehindBlank(app);
  }

  lemma AppLexed(app: string, n: int)
    requires app != "" && forall c :: c in app ==> NameChar(c)
    ensures '\n' !in "App: " + app
    ensures LexLine("App: " + app, n) == Lexed([Token(TApp, "App", n, 1), Token(TIdent, app, n, 6)], [])
  {
    hide NameChar, TrimSpace, IndexOf, IsHeader;
    AppShape(app);
    AppTrimmed();
  }

  lemma AppTrimmed()
    ensures TrimSpace("App") == "App" && Lower("App") == "app"
  {
    Untrimmed("App");
    assert Lower("App") == "app";
  }

  lemma NameCharPlain(c: char)
    requires NameChar(c)
    ensures !IsSpace(c) && c != '\n' && c != '#'
  {
  }

  lemma TrimmedBehindBlank(s: string)
    requires s != "" && !IsSpace(s[0]) && !IsSpace(s[|s| - 1])
    ensures TrimSpace(" " + s) == s
  {
    Untrimmed(s);
    assert (" " + s)[1..] == s;
  }

  /** Lexing and parsing a text that begins with an application name. */
  lemma AppThen(app: string, lines: seq<string>, end: Token)
    requires app != "" && forall c :: c in app ==> NameChar(c)
    requires end.ty.TEOF?
    ensures var l := LexedLines(["App: " + app] + lines, 1);
            var others := LexedLines(lines, 2);
            && l.errs == others.errs
            && R.Recipe(l.tokens + [end], R.EMPTY_RECIPE) ==
               R.Recipe(others.tokens + [end], R.EMPTY_RECIPE.(name := app))
  {
    hide LexLine, R.Recipe, Join;
    AppLexed(app, 1);
    var all := ["App: " + app] + lines;
    assert all[1..] == lines;
    var others := LexedLines(lines, 2);
    var br := LineBreak(1, "App: " + app);
    var toks := [Token(TApp, "App", 1, 1), Token(TIdent, app, 1, 6), br] + (others.tokens + [end]);
    AppJoined(app, lines);
    assert LexedLines(all, 1).tokens + [end] == toks;
    AppItem(app, br, others.tokens + [end]);
  }

  lemma AppJoined(app: string, lines: seq<string>)
    requires LexLine("App: " + app, 1) == Lexed([Token(TApp, "App", 1, 1), Token(TIdent, app, 1, 6)], [])
    ensures var l := LexedLines(["App: " + app] + lines, 1);
            l.tokens == [Token(TApp, "App", 1, 1), Token(TIdent, app, 1, 6), LineBreak(1, "App: " + app)]
                        + LexedLines(lines, 2).tokens &&
            l.errs == LexedLines(lines, 2).errs
  {
    hide LexLine;
    assert (["App: " + app] + lines)[1..] == lines;
  }

  lemma AppItem(app: string, br: Token, rest: seq<Token>)
    requires br.ty.TNewline?
    ensures R.Recipe([Token(TApp, "App", 1, 1), Token(TIdent, app, 1, 6), br] + rest, R.EMPTY_RECIPE) ==
            R.Recipe(rest, R.EMPTY_RECIPE.(name := app))
  {
    hide R.Recipe, R.Item;
    var first, name := Token(TApp, "App", 1, 1), Token(TIdent, app, 1, 6);
    var toks, behind := [first, name, br] + rest, [br] + rest;
    var r := R.EMPTY_RECIPE.(name := app);
    assert toks == [first, name] + behind && behind[1..] == rest;
    NamedItem(first, name, behind, R.EMPTY_RECIPE);
    R.RecipeItem(toks, R.EMPTY_RECIPE);
    R.RecipeSkips(behind, r);
    R.RecipeSkips(rest, r);
  }

  lemma NamedItem(first: Token, name: Token, rest: seq<Token>, r: Recipe)
    requires first.ty.TApp? && name.ty.TIdent?
    ensures R.Item([first, name] + rest, r) == R.Listed(rest, r.(name := name.val), [])
  {
    hide Section, R.Images, R.Crds, R.SkipToBoundary;
    var t := [name] + rest;
    assert ([first, name] + rest)[1..] == t && t[1..] == rest;
    assert R.SkipNewlines(t) == t;
  }

  lemma AppNameChars(services: seq<Named>)
    requires services != [] && services[0].name != "" && forall c :: c in services[0].name ==> NameChar(c)
    ensures AppName(services) != "" && forall c :: c in AppName(services) ==> NameChar(c)
  {
    forall c | c in "-stack" ensures NameChar(c) { }
  }

  /** Text that is lexed and parsed is read as its lines are. */
  lemma TextRead(lines: seq<string>)
    requires Unbroken(lines)
    ensures var end := Token(TEOF, "", 1 + |lines|, 1);
            Lex(Unlines(lines)) == Join(LexedLines(lines, 1), Lexed([end], []))
  {
    hide LexLine, Unlines, SplitLines, LexedLines, LexLines;
    SplitUnlines(lines);
    LexedThenEnd(lines, 1);
  }

  /** The recipe text of services parses without errors to a recipe of the same name, with one slice for
      each service: the one that the service is converted to, exactly if its ports agree. */
  lemma RoundTrip(services: seq<Named>)
    requires services != [] && forall n :: n in services ==> InFragment(n)
    ensures var lexed := Lex(Unlines(RecipeLines(services)));
            var p := R.Recipe(lexed.tokens, R.EMPTY_RECIPE);
            && lexed.errs == [] && p.errs == []
            && p.recipe == Recipe(AppName(services), "", map[], [], p.recipe.slices)
            && |p.recipe.slices| == |services|
            && forall i :: 0 <= i < |services| ==>
                 (SameUpToName(p.recipe.slices[i], Converted(services[i].name, services[i].service)) <==>
                  Agrees(services[i].service))
  {
    hide LexLine, Unlines, LexedLines, SectionsLines, Lex, R.Recipe, SameUpToName, Agrees, Converted, AppName,
      ServiceOk, NameChar;
    assert services[0] in services;
    var app := AppName(services);
    AppNameChars(services);
    var lines, others := RecipeLines(services), SectionsLines(services);
    var end := Token(TEOF, "", 1 + |lines|, 1);
    AllSectionsParse(services, 2, end, R.EMPTY_RECIPE.(name := app));
    AppLexed(app, 1);
    TextRead(lines);
    AppThen(app, others, end);
    var l := LexedLines(lines, 1);
    assert l.errs + [] == l.errs;
  }

  // ---- The name that gets lost ----

  ghost predicate NoHeader(toks: seq<Token>) { forall t :: t in toks ==> !t.ty.TSectionHeader? }

  lemma {:induction false} ListRests(toks: seq<Token>, aliases: map<string, string>, crds: seq<string>)
    requires NoHeader(toks)
    ensures NoHeader(R.Images(toks, aliases).rest) && NoHeader(R.Crds(toks, crds).rest)
    decreases |toks|
  {
    hide R.AliasEntry, R.CrdEntry;
    if !R.StopsList(toks) {
      if Insignificant(toks[0].ty) {
        ListRests(toks[1..], aliases, crds);
      } else {
        var e, f := R.AliasEntry(LineOf(toks)), R.CrdEntry(LineOf(toks));
        ListRests(Behind(toks, e.line), R.AddAlias(aliases, e.value), crds);
        ListRests(Behind(toks, f.line), aliases, R.AddCrd(crds, f.value));
      }
    }
  }

  lemma {:induction false} SkipRests(toks: seq<Token>)
    requires NoHeader(toks)
    ensures NoHeader(R.SkipToBoundary(toks)) && NoHeader(R.SkipNewlines(toks))
    decreases |toks|
  {
    if toks != [] { SkipRests(toks[1..]); }
  }

  /** Without section headers there are no slices. */
  lemma {:induction false} NoSlices(toks: seq<Token>, r: Recipe)
    requires NoHeader(toks)
    ensures R.Recipe(toks, r).recipe.slices == r.slices
    decreases |toks|
  {
    hide R.Item;
    if !R.AtEnd(toks) {
      ItemAddsNoSlice(toks, r);
      NoSlices(R.Item(toks, r).rest, R.Item(toks, r).value);
    }
  }

  lemma ItemAddsNoSlice(toks: seq<Token>, r: Recipe)
    requires NoHeader(toks) && !R.AtEnd(toks)
    ensures NoHeader(R.Item(toks, r).rest) && R.Item(toks, r).value.slices == r.slices
  {
    hide R.Images, R.Crds, Section, R.SkipToBoundary, R.SkipNewlines;
    assert toks[0] in toks;
    ListRests(toks[1..], r.aliases, r.crds);
    SkipRests(toks[1..]);
  }

  lemma CrdsLexed(name: string, n: int)
    requires name != "" && (forall c :: c in name ==> NameChar(c)) && Lower(name) == "crds"
    ensures var header := Capitalize(name);
            LexLine(header + ":", n) == Lexed([Token(TCRDs, header, n, 1)], [])
  {
    hide TrimSpace, IndexOf, IsHeader, NameChar;
    var header := Capitalize(name);
    assert name[0] in name;
    assert header == [UpperChar(name[0])] + name[1..];
    CapitalChars(name);
    assert Lower(header) == Lower(name);
    var line := header + ":";
    HeaderShape(header);
    assert line[..|header|] == header && line[|header| + 1..] == "";
    assert header[0] in header && line[0] == header[0];
    NameCharPlain(header[0]);
    NothingTrimmed();
  }

  lemma CapitalChars(name: string)
    requires name != "" && forall c :: c in name ==> NameChar(c)
    ensures forall c :: c in [UpperChar(name[0])] + name[1..] ==> NameChar(c)
  {
    assert name[0] in name;
  }

  /** A service called "crds" is converted to a slice, but its text has none: the name is not among the
      words that the importer keeps clear of. */
  lemma CrdsIsLost(n: Named)
    requires n.name != "" && (forall c :: c in n.name ==> NameChar(c)) && Lower(n.name) == "crds"
    requires ServiceOk(n.service)
    ensures R.Recipe(Lex(Unlines(RecipeLines([n]))).tokens, R.EMPTY_RECIPE).recipe.slices == []
    ensures |ConvertedAll([n])| == 1
  {
    hide LexLine, Unlines, LexedLines, SectionLines, ServiceLines, Lex, R.Recipe, Converted, ServiceOk, NameChar,
      Capitalize, Section, Lines;
    var lines := RecipeLines([n]);
    var end := Token(TEOF, "", 1 + |lines|, 1);
    AppNameChars([n]);
    AppLexed(n.name, 1);
    CrdsLines(n, 2);
    assert [n][1..] == [] && SectionsLines([n]) == SectionLines(n) + [];
    assert SectionLines(n) + [] == SectionLines(n);
    TextRead(lines);
    AppThen(n.name, SectionLines(n), end);
    NoSlices(LexedLines(SectionLines(n), 2).tokens + [end], R.EMPTY_RECIPE.(name := n.name));
  }

  lemma CrdsLines(n: Named, first: int)
    requires n.name != "" && (forall c :: c in n.name ==> NameChar(c)) && Lower(n.name) == "crds"
    requires ServiceOk(n.service)
    ensures NoHeader(LexedLines(SectionLines(n), first).tokens) && Unbroken(SectionLines(n))
  {
    hide LexLine, ServiceLines, ServiceOk, NameChar, Capitalize, Section, ServiceEdits;
    ServiceReads(n.service);
    assert BodyReads(ServiceLines(n.service), first + 2, ServiceEdits(n.service));
    EmptyLexed(first);
    CrdsLexed(n.name, first + 1);
    CrdsUnbroken(n.name);
    assert SectionLines(n)[1..][1..] == ServiceLines(n.service);
  }

  lemma CrdsUnbroken(name: string)
    requires name != "" && (forall c :: c in name ==> NameChar(c)) && Lower(name) == "crds"
    ensures '\n' !in Capitalize(name) + ":"
  {
    CapitalChars(name);
    HeaderShape([UpperChar(name[0])] + name[1..]);
  }
}
