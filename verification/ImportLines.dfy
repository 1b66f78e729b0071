/** How the lexer and the parser read the lines that the importer writes
    (internal/importer/compose.go:174-226, read by internal/recipe). */
module ImportLines {
  import opened Ast
  import opened Tokens
  import opened Text
  import opened Lexer
  import opened LexerLaws
  import opened Edits
  import opened Directives
  import opened Sections
  import opened Importer

  // ---- Expected tokens, wherever they stand ----

  function Tok(w: string): Token { ClassifyWord(w, 0, 0) }

  function Str(v: string): Token { Token(TString, v, 0, 0) }

  const COMMA := Token(TComma, ",", 0, 0)

  /** Printed as the importer does: two blanks in front, one between. */
  function Printed(toks: seq<Token>): string { " " + PrintTokens(toks, true) }

  lemma LexableInline(t: Token)
    requires Lexable(t)
    ensures !Structural(t.ty)
  {
    hide Lower, Keyword;
  }

  /** Read as a directive, tokens like toks come to these edits and nothing else. */
  ghost predicate Reads(toks: seq<Token>, edits: seq<Edit>)
    requires toks != [] && !Structural(toks[0].ty)
  {
    forall s, nl: Token :: SameTokens(s, toks) && nl.ty.TNewline? ==>
      Directive(Rest(s, nl, [], [])) == Rest([], nl, edits, [])
  }

  /** As the n-th line of a section, with nl behind it. */
  ghost predicate LineReads(line: string, n: int, nl: Token, edits: seq<Edit>) {
    var toks := LexLine(line, n).tokens + [nl];
    && LexLine(line, n).errs == [] && Lines(toks)
    && Section(toks, false) == Body([], edits, [], false)
  }

  ghost predicate LineMeans(line: string, edits: seq<Edit>) {
    '\n' !in line && forall n, nl: Token :: nl.ty.TNewline? ==> LineReads(line, n, nl, edits)
  }

  lemma NoMore(nl: Token)
    requires nl.ty.TNewline?
    ensures Section([nl], false) == Body([], [], [], false)
  {
    hide Directive, Step, Open;
    assert [nl][1..] == [];
  }

  lemma DirectiveSection(s: seq<Token>, nl: Token, edits: seq<Edit>)
    requires s != [] && nl.ty.TNewline? && (forall i :: 0 <= i < |s| ==> !Structural(s[i].ty))
    requires !OpensBlock(Rest(s, nl, [], []))
    requires !Structural(s[0].ty) && Directive(Rest(s, nl, [], [])) == Rest([], nl, edits, [])
    ensures Lines(s + [nl]) && Section(s + [nl], false) == Body([], edits, [], false)
  {
    hide Directive, Section, Step, Open, Behind, Boundary, LineOf, OpensBlock;
    var toks := s + [nl];
    LineWhole(s, nl);
    FirstStep(toks, s, nl, edits);
    SectionStep(toks, false);
    NoMore(nl);
    assert edits + [] == edits;
  }

  /** A line of tokens and its end. */
  lemma LineWhole(s: seq<Token>, nl: Token)
    requires nl.ty.TNewline? && forall i :: 0 <= i < |s| ==> !Structural(s[i].ty)
    ensures LineOf(s + [nl]) == Rest(s, nl, [], []) && LineLength(s + [nl]) == |s| && Lines(s + [nl])
  {
    hide LineLength, Structural, Boundary, EndsLine, Lines;
    var toks := s + [nl];
    NewlineEnds(nl.ty);
    assert Lines(toks) by { LineIsLines(s, nl); }
    forall i | 0 <= i < |s| ensures !EndsLine(toks[i].ty) {
      NotStructural(s[i].ty);
    }
    LineLengthIs(toks, |s|);
    assert toks[..|s|] == s;
    assert toks[|s|..] == [nl];
  }

  lemma LineIsLines(s: seq<Token>, nl: Token)
    requires nl.ty.TNewline? && forall i :: 0 <= i < |s| ==> !Structural(s[i].ty)
    ensures Lines(s + [nl])
  {
    hide Structural, Boundary;
    var toks := s + [nl];
    NewlineEnds(nl.ty);
    forall i | 0 <= i < |toks| ensures !toks[i].ty.TEOF? && !Boundary(toks[i].ty) {
      if i < |s| {
        assert toks[i] == s[i];
        NotStructural(s[i].ty);
      } else {
        assert toks[i] == nl;
      }
    }
  }

  lemma NotStructural(ty: TokenType)
    requires !Structural(ty)
    ensures !EndsLine(ty) && !ty.TEOF? && !Boundary(ty)
  {
  }

  lemma NewlineEnds(ty: TokenType)
    requires ty.TNewline?
    ensures EndsLine(ty) && !Boundary(ty)
  {
  }

  lemma FirstStep(toks: seq<Token>, s: seq<Token>, nl: Token, edits: seq<Edit>)
    requires toks != [] && !StopsSection(toks) && !Insignificant(toks[0].ty) && s != []
    requires !OpensBlock(Rest(s, nl, [], []))
    requires toks == s + [nl] && LineOf(toks) == Rest(s, nl, [], []) && LineLength(toks) == |s|
    requires Directive(Rest(s, nl, [], [])) == Rest([], nl, edits, [])
    ensures Step(toks, false) == Rest([], nl, edits, []) && !Open(toks, false)
    ensures Behind(toks, Step(toks, false)) == [nl]
  {
    hide Directive, LineOf, LineLength, OpensBlock;
  }

  lemma SameOpens(s: seq<Token>, nl: Token, toks: seq<Token>)
    requires SameTokens(s, toks)
    ensures OpensBlock(Rest(s, nl, [], [])) == OpensBlock(Rest(toks, END, [], []))
  {
    hide Lower, TrimSuffix;
    if |s| > 1 {
      assert s[1..][0] == s[1] && toks[1..][0] == toks[1];
      assert s[0].ty == toks[0].ty && s[1].ty == toks[1].ty && s[1].val == toks[1].val;
    } else if s != [] {
      assert s[1..] == [] && toks[1..] == [];
    }
  }

  lemma DirectiveLine(line: string, toks: seq<Token>, edits: seq<Edit>)
    requires toks != [] && (forall t :: t in toks ==> Lexable(t)) && LeadOf(toks) == Some(false)
    requires !Structural(toks[0].ty) && !OpensBlock(Rest(toks, END, [], [])) && Reads(toks, edits)
    requires line == Printed(toks) && '\n' !in line
    ensures LineMeans(line, edits)
  {
    hide Directive, Section, Lexable, LexLine, Lines, Structural, OpensBlock;
    forall n, nl: Token | nl.ty.TNewline? ensures LineReads(line, n, nl, edits) {
      PrintedLine(toks, true, " ", n);
      var s := LexLine(line, n).tokens;
      forall i | 0 <= i < |s| ensures !Structural(s[i].ty) {
        assert toks[i] in toks;
        LexableInline(toks[i]);
      }
      SameOpens(s, nl, toks);
      DirectiveSection(s, nl, edits);
    }
  }

  // ---- Words ----

  ghost predicate IsKey(w: string, ty: TokenType) {
    Word(w) && '\n' !in w && Lower(w) == w && Keyword(w) == Some(ty) && !IsSpace(w[0]) && w[0] != '#'
  }

  lemma KeywordTok(w: string, ty: TokenType)
    requires IsKey(w, ty)
    ensures Tok(w) == Token(ty, w, 0, 0) && Lexable(Tok(w)) && TokenText(Tok(w)) == w
    ensures forall rest :: LeadOf([Tok(w)] + rest) == Some(false)
  {
    hide Keyword, IsSpace;
    WordLexable(w, 0, 0);
  }

  /** The words that the importer writes are keywords as it means them. */
  lemma ImageWords()
    ensures IsKey("from", TFrom) && IsKey("image", TImage)
  {
  }

  lemma PostgresWord()
    ensures IsKey("postgres", TPostgres)
  {
  }

  lemma MysqlWord()
    ensures IsKey("mysql", TMysql)
  {
  }

  lemma RedisWord()
    ensures IsKey("redis", TRedis)
  {
    hide Keyword;
    RedisKeyword();
  }

  lemma RedisKeyword()
    ensures Keyword("redis") == Some(TRedis)
  {
    hide ServiceKeyword, PodKeyword, PolicyKeyword;
  }

  lemma PortWords()
    ensures IsKey("open", TOpen) && IsKey("to", TTo) && IsKey("the", TThe) && IsKey("public", TPublic)
  {
  }

  lemma OnPortWords()
    ensures IsKey("on", TOn) && IsKey("port", TPort)
  {
  }

  lemma RunWord()
    ensures IsKey("run", TRun)
  {
  }

  lemma CopiesWord()
    ensures IsKey("copies", TCopies)
  {
    hide Keyword;
    CopiesKeyword();
  }

  lemma CopiesKeyword()
    ensures Keyword("copies") == Some(TCopies)
  {
    hide ServiceKeyword, PodKeyword, PolicyKeyword;
  }

  lemma RestartIsKey()
    ensures IsKey("restart", TRestart)
  {
  }

  lemma AlwaysWord()
    ensures IsKey("always", TAlways)
  {
  }

  lemma UnlessStoppedWord()
    ensures IsKey("unless-stopped", TUnlessStopped)
  {
  }

  lemma NeedsWord()
    ensures IsKey("needs", TNeeds)
  {
  }

  lemma AndWord()
    ensures IsKey("and", TAnd)
  {
  }

  lemma SetWords()
    ensures IsKey("set", TSet) && IsKey("to", TTo)
  {
  }

  /** A word that may stand in a line of a recipe. */
  predicate Plain(w: string) { Word(w) && '\n' !in w }

  /** One that is no keyword, number or boolean. */
  predicate PlainName(w: string) { Plain(w) && Tok(w).ty.TIdent? }

  predicate PlainAmount(w: string) { Plain(w) && (Tok(w).ty.TIdent? || Tok(w).ty.TNumber?) }

  lemma PlainTok(w: string)
    requires Plain(w)
    ensures Lexable(Tok(w)) && (!Tok(w).ty.TBool? ==> Tok(w).val == w && TokenText(Tok(w)) == w)
  {
    hide Keyword;
    WordLexable(w, 0, 0);
  }

  lemma NothingPrinted()
    ensures PrintTokens([], true) == ""
  {
  }

  lemma PrintCons(t: Token, rest: seq<Token>)
    requires !t.ty.TComma?
    ensures PrintTokens([t] + rest, true) == " " + TokenText(t) + PrintTokens(rest, true)
  {
    hide TokenText;
    assert ([t] + rest)[1..] == rest;
  }

  lemma PrintWord(w: string, rest: seq<Token>, s: string)
    requires TokenText(Tok(w)) == w && !Tok(w).ty.TComma? && PrintTokens(rest, true) == s
    ensures PrintTokens([Tok(w)] + rest, true) == " " + w + s
  {
    hide PrintTokens, ClassifyWord;
    PrintCons(Tok(w), rest);
  }

  lemma CommaLexable()
    ensures Lexable(COMMA)
  {
  }

  lemma PrintComma(rest: seq<Token>)
    ensures PrintTokens([COMMA] + rest, true) == "," + PrintTokens(rest, true)
  {
    assert ([COMMA] + rest)[1..] == rest;
    assert "" + "," + PrintTokens(rest, true) == "," + PrintTokens(rest, true);
  }

  // ---- Images ----

  predicate ImageWord(image: string) {
    Plain(image) && (Tok(image).ty.TIdent? || IsImageRefToken(Tok(image).ty))
  }

  lemma FromImageReadsText(image: string)
    requires '\n' !in image
    ensures " " + (" " + "from" + (" " + "image" + (" " + image + ""))) == "  from image " + image
    ensures '\n' !in "  from image " + image
  {
  }

  lemma FromImageReads(image: string)
    requires ImageWord(image)
    ensures LineMeans("  from image " + image, [SetImage(image)])
  {
    hide Keyword, ClassifyWord, Lexable, LineMeans, IsKey, TokenText, LeadOf, Reads, Word, PrintTokens;
    ImageWords();
    KeywordTok("from", TFrom);
    KeywordTok("image", TImage);
    PlainTok(image);
    NothingPrinted();
    var t2, s2 := [Tok(image)] + [], " " + image + "";
    PrintWord(image, [], "");
    var t1, s1 := [Tok("image")] + t2, " " + "image" + s2;
    PrintWord("image", t2, s2);
    var t0, s0 := [Tok("from")] + t1, " " + "from" + s1;
    PrintWord("from", t1, s1);
    FromImageReadsText(image);
    assert Printed(t0) == "  from image " + image;
    FromImageEdits(t0, image);
    DirectiveLine("  from image " + image, t0, [SetImage(image)]);
  }

  lemma FromImageEdits(toks: seq<Token>, image: string)
    requires |toks| == 3 && toks[0].ty.TFrom? && toks[1].ty.TImage? && toks[2].val == image
    requires toks[2].ty.TIdent? || IsImageRefToken(toks[2].ty)
    ensures Reads(toks, [SetImage(image)])
  {
    forall s, nl: Token | SameTokens(s, toks) && nl.ty.TNewline?
      ensures Directive(Rest(s, nl, [], [])) == Rest([], nl, [SetImage(image)], [])
    {
    }
  }

  // ---- Engines ----

  lemma SizeIsName()
    ensures PlainName("10Gi")
  {
    hide CoreKeyword, ServiceKeyword, PodKeyword, PolicyKeyword;
    assert Lower("10Gi")[0] == '1';
    assert !IsDigit("10Gi"[2]);
  }

  lemma StorageText(engine: string, version: string)
    requires '\n' !in engine && '\n' !in version
    ensures " " + (" " + engine + (" " + version + ("," + (" " + "10Gi" + "")))) ==
            "  " + engine + " " + version + ", 10Gi"
    ensures '\n' !in "  " + engine + " " + version + ", 10Gi"
  {
    assert "," + (" " + "10Gi" + "") == ", 10Gi";
  }

  lemma StorageReads(engine: string, version: string)
    requires HasStorage(engine) && PlainAmount(version)
    ensures LineMeans("  " + engine + " " + version + ", 10Gi",
                      [SetEngine(engine), SetVersion(version), SetStorage("10Gi")])
  {
    hide Keyword, ClassifyWord, Lexable, LineMeans, IsKey, TokenText, LeadOf, Reads, Word, PrintTokens;
    PostgresWord();
    MysqlWord();
    SizeIsName();
    CommaLexable();
    var ty := if engine == "postgres" then TPostgres else TMysql;
    KeywordTok(engine, ty);
    PlainTok(version);
    PlainTok("10Gi");
    KeyLower(engine, ty);
    NothingPrinted();
    var t3, s3 := [Tok("10Gi")] + [], " " + "10Gi" + "";
    PrintWord("10Gi", [], "");
    var t2, s2 := [COMMA] + t3, "," + s3;
    PrintComma(t3);
    var t1, s1 := [Tok(version)] + t2, " " + version + s2;
    PrintWord(version, t2, s2);
    var t0 := [Tok(engine)] + t1;
    PrintWord(engine, t1, s1);
    StorageText(engine, version);
    var line := "  " + engine + " " + version + ", 10Gi";
    assert Printed(t0) == line;
    StorageEdits(t0, engine, version);
    DirectiveLine(line, t0, [SetEngine(engine), SetVersion(version), SetStorage("10Gi")]);
  }

  lemma KeyLower(w: string, ty: TokenType)
    requires IsKey(w, ty)
    ensures Lower(w) == w && '\n' !in w
  {
    hide Keyword;
  }

  lemma StorageEdits(toks: seq<Token>, engine: string, version: string)
    requires |toks| == 4 && (toks[0].ty.TPostgres? || toks[0].ty.TMysql?) && toks[0].val == engine == Lower(engine)
    requires (toks[1].ty.TIdent? || toks[1].ty.TNumber?) && toks[1].val == version
    requires toks[2].ty.TComma? && toks[3].ty.TIdent? && toks[3].val == "10Gi"
    ensures Reads(toks, [SetEngine(engine), SetVersion(version), SetStorage("10Gi")])
  {
    hide DatabaseShorthand;
    forall s, nl: Token | SameTokens(s, toks) && nl.ty.TNewline?
      ensures Directive(Rest(s, nl, [], [])) ==
                Rest([], nl, [SetEngine(engine), SetVersion(version), SetStorage("10Gi")], [])
    {
      DatabaseTaken(s, nl, engine, version);
    }
  }

  lemma DatabaseTaken(s: seq<Token>, nl: Token, engine: string, version: string)
    requires |s| == 4 && s[0].val == engine == Lower(engine)
    requires (s[1].ty.TIdent? || s[1].ty.TNumber?) && s[1].val == version
    requires s[2].ty.TComma? && s[3].ty.TIdent? && s[3].val == "10Gi"
    ensures DatabaseShorthand(Rest(s, nl, [], [])) ==
              Rest([], nl, [SetEngine(engine), SetVersion(version), SetStorage("10Gi")], [])
  {
    hide Lower, DatabaseOptions;
    var edits := [SetEngine(engine), SetVersion(version), SetStorage("10Gi")];
    var rest := Rest(s[2..], nl, edits[..2], []);
    assert s[1..][1..] == s[2..] && EngineAndVersion(Rest(s, nl, [], [])) == rest;
    StorageOption(rest);
    assert edits[..2] + [SetStorage("10Gi")] == edits;
  }

  lemma StorageOption(s: Rest)
    requires |s.toks| == 2 && s.toks[0].ty.TComma? && s.toks[1].ty.TIdent? && s.toks[1].val == "10Gi"
    ensures DatabaseOptions(s) == s.(toks := [], edits := s.edits + [SetStorage("10Gi")])
  {
    var t := Rest([], s.end, s.edits + [SetStorage("10Gi")], s.errs);
    assert s.toks[1..][1..] == [];
    assert DatabaseOptions(t) == t;
  }

  lemma CacheReadsText(version: string)
    requires '\n' !in version
    ensures " " + (" " + "redis" + (" " + version + "")) == "  redis " + version && '\n' !in "  redis " + version
  {
  }

  lemma CacheReads(version: string)
    requires PlainAmount(version)
    ensures LineMeans("  redis " + version, [SetEngine("redis"), SetVersion(version)])
  {
    hide Keyword, ClassifyWord, Lexable, LineMeans, IsKey, TokenText, LeadOf, Reads, Word, PrintTokens;
    RedisWord();
    KeywordTok("redis", TRedis);
    PlainTok(version);
    KeyLower("redis", TRedis);
    NothingPrinted();
    var t1, s1 := [Tok(version)] + [], " " + version + "";
    PrintWord(version, [], "");
    var t0, s0 := [Tok("redis")] + t1, " " + "redis" + s1;
    PrintWord("redis", t1, s1);
    CacheReadsText(version);
    assert Printed(t0) == "  redis " + version;
    CacheEdits(t0, version);
    DirectiveLine("  redis " + version, t0, [SetEngine("redis"), SetVersion(version)]);
  }

  lemma CacheEdits(toks: seq<Token>, version: string)
    requires |toks| == 2 && toks[0].ty.TRedis? && toks[0].val == "redis" == Lower("redis")
    requires (toks[1].ty.TIdent? || toks[1].ty.TNumber?) && toks[1].val == version
    ensures Reads(toks, [SetEngine("redis"), SetVersion(version)])
  {
    hide Lower;
    forall s, nl: Token | SameTokens(s, toks) && nl.ty.TNewline?
      ensures Directive(Rest(s, nl, [], [])) == Rest([], nl, [SetEngine("redis"), SetVersion(version)], [])
    {
    }
  }

  // ---- Numbers ----

  /** Digits that are a number for the parser. */
  predicate Digits(d: string) { d != "" && AllDigits(d) && DigitsValue(d) <= MAX_INT64 }

  lemma DigitsTok(d: string)
    requires Digits(d)
    ensures Plain(d) && Tok(d) == Token(TNumber, d, 0, 0) && Lexable(Tok(d)) && TokenText(Tok(d)) == d
    ensures Atoi(d) == Some(DigitsValue(d))
  {
    hide CoreKeyword, ServiceKeyword, PodKeyword, PolicyKeyword, DigitsValue;
    assert IsDigit(d[0]);
    forall i | 0 <= i < |d| ensures LowerChar(d[i]) == d[i] && !IsDelimiter(d[i]) && d[i] != '\n' {
      assert IsDigit(d[i]);
    }
    assert Lower(d) == d;
  }

  function OnPortToks(d: string): seq<Token> { [Tok("on")] + ([Tok("port")] + ([Tok(d)] + [])) }

  lemma OnPortText(d: string)
    ensures " " + "on" + (" " + "port" + (" " + d + "")) == " on port " + d
  {
  }

  lemma OnPortPrint(d: string)
    requires Digits(d) && IsKey("on", TOn) && IsKey("port", TPort)
    ensures PrintTokens(OnPortToks(d), true) == " on port " + d
  {
    hide Keyword, ClassifyWord, IsKey, TokenText, Word, DigitsValue, LeadOf, PrintTokens;
    KeywordTok("on", TOn);
    KeywordTok("port", TPort);
    DigitsTok(d);
    NothingPrinted();
    var t2, s2 := [Tok(d)] + [], " " + d + "";
    PrintWord(d, [], "");
    var t1, s1 := [Tok("port")] + t2, " " + "port" + s2;
    PrintWord("port", t2, s2);
    var t0, s0 := [Tok("on")] + t1, " " + "on" + s1;
    PrintWord("on", t1, s1);
    OnPortText(d);
  }

  lemma OnPortReads(d: string)
    requires Digits(d)
    ensures LineMeans("  on port " + d, [SetPort(DigitsValue(d))])
  {
    hide Keyword, ClassifyWord, Lexable, LineMeans, IsKey, TokenText, LeadOf, Reads, Word, DigitsValue, Atoi;
    OnPortWords();
    KeywordTok("on", TOn);
    KeywordTok("port", TPort);
    DigitsTok(d);
    var t0 := OnPortToks(d);
    OnPortPrint(d);
    assert Printed(t0) == "  on port " + d;
    OnPortEdits(t0, d);
    DirectiveLine("  on port " + d, t0, [SetPort(DigitsValue(d))]);
  }

  lemma OnPortEdits(toks: seq<Token>, d: string)
    requires |toks| == 3 && toks[0].ty.TOn? && toks[1].ty.TPort? && toks[2].ty.TNumber? && toks[2].val == d
    requires AllDigits(d) && Atoi(d) == Some(DigitsValue(d))
    ensures Reads(toks, [SetPort(DigitsValue(d))])
  {
    hide DigitsValue, Atoi;
    forall s, nl: Token | SameTokens(s, toks) && nl.ty.TNewline?
      ensures Directive(Rest(s, nl, [], [])) == Rest([], nl, [SetPort(DigitsValue(d))], [])
    {
    }
  }

  function PublicToks(rest: seq<Token>): seq<Token> {
    [Tok("open")] + ([Tok("to")] + ([Tok("the")] + ([Tok("public")] + rest)))
  }

  lemma PublicText(s: string)
    ensures " " + "open" + (" " + "to" + (" " + "the" + (" " + "public" + s))) == " open to the public" + s
  {
    assert " " + "public" + s == " public" + s;
    assert " " + "the" + (" public" + s) == " the public" + s;
    assert " " + "to" + (" the public" + s) == " to the public" + s;
  }

  lemma PublicPrint(rest: seq<Token>)
    requires IsKey("open", TOpen) && IsKey("to", TTo) && IsKey("the", TThe) && IsKey("public", TPublic)
    ensures PrintTokens(PublicToks(rest), true) == " open to the public" + PrintTokens(rest, true)
  {
    hide Keyword, ClassifyWord, IsKey, TokenText, Word, LeadOf, PrintTokens;
    KeywordTok("open", TOpen);
    KeywordTok("to", TTo);
    KeywordTok("the", TThe);
    KeywordTok("public", TPublic);
    var s := PrintTokens(rest, true);
    var t3, s3 := [Tok("public")] + rest, " " + "public" + s;
    PrintWord("public", rest, s);
    var t2, s2 := [Tok("the")] + t3, " " + "the" + s3;
    PrintWord("the", t3, s3);
    var t1, s1 := [Tok("to")] + t2, " " + "to" + s2;
    PrintWord("to", t2, s2);
    var t0, s0 := [Tok("open")] + t1, " " + "open" + s1;
    PrintWord("open", t1, s1);
    PublicText(s);
  }

  lemma OpenPublicReads(d: string)
    requires Digits(d)
    ensures LineMeans("  open to the public on port " + d, [SetPublic, SetPort(DigitsValue(d))])
  {
    hide Keyword, ClassifyWord, Lexable, LineMeans, IsKey, TokenText, LeadOf, Reads, Word, DigitsValue, Atoi,
      PrintTokens;
    PortWords();
    OnPortWords();
    KeywordTok("open", TOpen);
    KeywordTok("to", TTo);
    KeywordTok("the", TThe);
    KeywordTok("public", TPublic);
    KeywordTok("on", TOn);
    KeywordTok("port", TPort);
    DigitsTok(d);
    OnPortPrint(d);
    PublicPrint(OnPortToks(d));
    var toks := PublicToks(OnPortToks(d));
    assert Printed(toks) == "  open to the public on port " + d;
    OpenPublicEdits(toks, d);
    DirectiveLine("  open to the public on port " + d, toks, [SetPublic, SetPort(DigitsValue(d))]);
  }

  lemma AdvOnce(s: Rest, n: nat)
    requires n < |s.toks|
    ensures Adv(s.(toks := s.toks[n..])) == s.(toks := s.toks[n + 1..])
  {
    assert s.toks[n..][1..] == s.toks[n + 1..];
  }

  lemma PublicWordsSkipped(s: Rest)
    requires |s.toks| == 6 && s.toks[0].ty.TTo? && s.toks[1].ty.TThe? && s.toks[2].ty.TPublic?
    requires s.toks[3].ty.TOn? && s.toks[4].ty.TPort?
    ensures SkipPublicWords(s) == s.(toks := s.toks[5..])
  {
    hide Adv;
    assert s == s.(toks := s.toks[0..]);
    AdvOnce(s, 0);
    AdvOnce(s, 1);
    AdvOnce(s, 2);
    AdvOnce(s, 3);
    AdvOnce(s, 4);
  }

  lemma OpenPublicEdits(toks: seq<Token>, d: string)
    requires |toks| == 7 && toks[0].ty.TOpen? && toks[1].ty.TTo? && toks[2].ty.TThe? && toks[3].ty.TPublic?
    requires toks[4].ty.TOn? && toks[5].ty.TPort? && toks[6].ty.TNumber? && toks[6].val == d
    requires AllDigits(d) && Atoi(d) == Some(DigitsValue(d))
    ensures Reads(toks, [SetPublic, SetPort(DigitsValue(d))])
  {
    hide DigitsValue, Atoi, SkipPublicWords;
    forall s, nl: Token | SameTokens(s, toks) && nl.ty.TNewline?
      ensures Directive(Rest(s, nl, [], [])) == Rest([], nl, [SetPublic, SetPort(DigitsValue(d))], [])
    {
      var rest := Rest(s[1..], nl, [SetPublic], []);
      assert [] + [SetPublic] == [SetPublic];
      PublicWordsSkipped(rest);
      assert rest.toks[5..] == s[6..] && s[6..][1..] == [];
      assert [SetPublic] + [SetPort(DigitsValue(d))] == [SetPublic, SetPort(DigitsValue(d))];
    }
  }

  lemma CopiesReadsText(d: string)
    requires '\n' !in d
    ensures " " + (" " + "run" + (" " + d + (" " + "copies" + ""))) == "  run " + d + " copies"
    ensures '\n' !in "  run " + d + " copies"
  {
  }

  lemma CopiesReads(n: int)
    requires 1 < n <= MAX_INT64
    ensures LineMeans("  run " + Decimal(n) + " copies", [SetReplicas(n)])
  {
    hide Keyword, ClassifyWord, Lexable, LineMeans, IsKey, TokenText, LeadOf, Reads, Word, PrintTokens, Itoa,
      DigitsValue, Atoi;
    var d := Itoa(n);
    RunWord();
    CopiesWord();
    KeywordTok("run", TRun);
    KeywordTok("copies", TCopies);
    ItoaValue(n);
    DigitsTok(d);
    NothingPrinted();
    var t2, s2 := [Tok("copies")] + [], " " + "copies" + "";
    PrintWord("copies", [], "");
    var t1, s1 := [Tok(d)] + t2, " " + d + s2;
    PrintWord(d, t2, s2);
    var t0, s0 := [Tok("run")] + t1, " " + "run" + s1;
    PrintWord("run", t1, s1);
    CopiesReadsText(d);
    assert Printed(t0) == "  run " + d + " copies";
    CopiesEdits(t0, n);
    DirectiveLine("  run " + d + " copies", t0, [SetReplicas(n)]);
  }

  lemma CopiesEdits(toks: seq<Token>, n: int)
    requires |toks| == 3 && toks[0].ty.TRun? && toks[1].ty.TNumber? && toks[2].ty.TCopies?
    requires Atoi(toks[1].val) == Some(n)
    ensures Reads(toks, [SetReplicas(n)])
  {
    hide Atoi, RunWords;
    forall s, nl: Token | SameTokens(s, toks) && nl.ty.TNewline?
      ensures Directive(Rest(s, nl, [], [])) == Rest([], nl, [SetReplicas(n)], [])
    {
      assert s[1..][1..] == s[2..] && s[2..][1..] == [];
      assert s[1..][0] == s[1] && [] + [SetReplicas(n)] == [SetReplicas(n)];
    }
  }

  // ---- Restart policies ----

  predicate RestartWord(r: string) { r == "always" || r == "unless-stopped" || PlainName(r) }

  lemma RestartTok(r: string)
    requires RestartWord(r) && IsKey("always", TAlways) && IsKey("unless-stopped", TUnlessStopped)
    ensures Lexable(Tok(r)) && TokenText(Tok(r)) == r == Tok(r).val && '\n' !in r
    ensures Tok(r).ty.TIdent? || (Tok(r).ty.TAlways? && r == "always") ||
            (Tok(r).ty.TUnlessStopped? && r == "unless-stopped")
  {
    hide Keyword, ClassifyWord, Lexable, TokenText, Word, LeadOf;
    if r == "always" {
      KeywordTok(r, TAlways);
    } else if r == "unless-stopped" {
      KeywordTok(r, TUnlessStopped);
    } else {
      PlainTok(r);
    }
  }

  lemma RestartReadsText(r: string)
    requires '\n' !in r
    ensures " " + (" " + "restart" + (" " + r + "")) == "  restart " + r && '\n' !in "  restart " + r
  {
  }

  lemma RestartReads(r: string)
    requires RestartWord(r)
    ensures LineMeans("  restart " + r, [SetRestartPolicy(r)])
  {
    hide Keyword, ClassifyWord, Lexable, LineMeans, IsKey, TokenText, LeadOf, Reads, Word, PrintTokens;
    hide RestartWord;
    RestartIsKey();
    AlwaysWord();
    UnlessStoppedWord();
    KeywordTok("restart", TRestart);
    RestartTok(r);
    NothingPrinted();
    var t1, s1 := [Tok(r)] + [], " " + r + "";
    PrintWord(r, [], "");
    var t0, s0 := [Tok("restart")] + t1, " " + "restart" + s1;
    PrintWord("restart", t1, s1);
    RestartReadsText(r);
    assert Printed(t0) == "  restart " + r;
    RestartEdits(t0, r);
    DirectiveLine("  restart " + r, t0, [SetRestartPolicy(r)]);
  }

  lemma RestartTaken(s: seq<Token>, nl: Token, r: string)
    requires |s| == 2
    requires s[1].ty.TIdent? || (s[1].ty.TAlways? && r == "always") ||
             (s[1].ty.TUnlessStopped? && r == "unless-stopped")
    requires s[1].val == r
    ensures Restart(Rest(s, nl, [], [])) == Rest([], nl, [SetRestartPolicy(r)], [])
  {
    assert s[1..][1..] == [];
  }

  lemma RestartEdits(toks: seq<Token>, r: string)
    requires |toks| == 2 && toks[0].ty.TRestart?
    requires toks[1].ty.TIdent? || (toks[1].ty.TAlways? && r == "always") ||
             (toks[1].ty.TUnlessStopped? && r == "unless-stopped")
    requires toks[1].val == r
    ensures Reads(toks, [SetRestartPolicy(r)])
  {
    hide Restart;
    forall s, nl: Token | SameTokens(s, toks) && nl.ty.TNewline?
      ensures Directive(Rest(s, nl, [], [])) == Rest([], nl, [SetRestartPolicy(r)], [])
    {
      RestartTaken(s, nl, r);
    }
  }

  // ---- Dependencies ----

  ghost predicate NeedWordsOk(needs: seq<string>) {
    (forall n :: n in needs ==> PlainName(n)) && (needs != [] ==> Lower(needs[0]) != "cluster-wide")
  }

  function NeedToks(needs: seq<string>): (toks: seq<Token>)
    requires needs != []
    ensures toks != []
  {
    [Tok(needs[0])] + if |needs| == 1 then [] else [Tok("and")] + NeedToks(needs[1..])
  }

  function NeedEdits(needs: seq<string>): seq<Edit> {
    if needs == [] then [] else [AddNeed(needs[0])] + NeedEdits(needs[1..])
  }

  lemma JoinText(n: string, s: string)
    ensures " " + n + (" " + "and" + (" " + s)) == " " + (n + " and " + s)
    ensures '\n' !in n && '\n' !in s ==> '\n' !in n + " and " + s
  {
    assert " " + "and" + (" " + s) == " and " + s;
  }

  lemma {:induction false} NeedToksPrint(needs: seq<string>)
    requires needs != [] && (forall n :: n in needs ==> PlainName(n)) && IsKey("and", TAnd)
    ensures PrintTokens(NeedToks(needs), true) == " " + JoinWith(needs, " and ")
    ensures forall t :: t in NeedToks(needs) ==> Lexable(t)
    ensures '\n' !in JoinWith(needs, " and ")
  {
    hide Keyword, ClassifyWord, Lexable, IsKey, TokenText, Word, PrintTokens;
    var n := needs[0];
    assert n in needs;
    PlainTok(n);
    NothingPrinted();
    if |needs| == 1 {
      PrintWord(n, [], "");
      assert " " + n + "" == " " + n;
    } else {
      var rest := needs[1..];
      var s := JoinWith(rest, " and ");
      KeywordTok("and", TAnd);
      NeedToksPrint(rest);
      PrintWord("and", NeedToks(rest), " " + s);
      PrintWord(n, [Tok("and")] + NeedToks(rest), " " + "and" + (" " + s));
      JoinText(n, s);
    }
    NeedToksLexable(needs);
  }

  lemma {:induction false} NeedToksLexable(needs: seq<string>)
    requires needs != [] && (forall n :: n in needs ==> PlainName(n)) && IsKey("and", TAnd)
    ensures forall t :: t in NeedToks(needs) ==> Lexable(t)
  {
    hide Keyword, ClassifyWord, Lexable, IsKey, Word;
    assert needs[0] in needs;
    PlainTok(needs[0]);
    KeywordTok("and", TAnd);
    if |needs| > 1 { NeedToksLexable(needs[1..]); }
  }

  lemma NeedAndMore(s: Rest, n: string)
    requires |s.toks| >= 2 && s.toks[0].ty.TIdent? && s.toks[0].val == n && s.toks[1].ty.TAnd?
    ensures NeedNames(s) == NeedNames(s.(toks := s.toks[2..], edits := s.edits + [AddNeed(n)]))
  {
    var t := s.(toks := s.toks[1..], edits := s.edits + [AddNeed(n)]);
    assert Adv(Put(s, AddNeed(n))) == t && At(t, TAnd);
    assert s.toks[1..][1..] == s.toks[2..];
    hide Adv, Put, At;
  }

  lemma NeedAndNoMore(s: Rest, n: string)
    requires |s.toks| == 1 && s.toks[0].ty.TIdent? && s.toks[0].val == n
    ensures NeedNames(s) == s.(toks := [], edits := s.edits + [AddNeed(n)])
  {
    assert s.toks[1..] == [];
  }

  lemma NeedEditsSplit(edits: seq<Edit>, needs: seq<string>)
    requires needs != []
    ensures edits + NeedEdits(needs) == edits + [AddNeed(needs[0])] + NeedEdits(needs[1..])
  {
  }

  lemma NeedToksSplit(needs: seq<string>)
    requires needs != []
    ensures NeedToks(needs)[0] == Tok(needs[0])
    ensures |needs| > 1 ==>
              |NeedToks(needs)| > 2 && NeedToks(needs)[1] == Tok("and") && NeedToks(needs)[2..] == NeedToks(needs[1..])
  {
    hide ClassifyWord;
    if |needs| > 1 {
      var first, rest := Tok(needs[0]), NeedToks(needs[1..]);
      assert NeedToks(needs) == [first] + ([Tok("and")] + rest);
      hide NeedToks, Tok;
      BehindTwo(first, Tok("and"), rest);
    }
  }

  lemma BehindTwo(a: Token, b: Token, rest: seq<Token>)
    ensures ([a] + ([b] + rest))[2..] == rest && ([a] + ([b] + rest))[1] == b
  {
  }

  lemma {:induction false} NeedNamesRead(s: Rest, needs: seq<string>)
    requires needs != [] && (forall n :: n in needs ==> PlainName(n)) && IsKey("and", TAnd)
    requires SameTokens(s.toks, NeedToks(needs))
    ensures NeedNames(s) == s.(toks := [], edits := s.edits + NeedEdits(needs))
    decreases |needs|
  {
    hide Keyword, ClassifyWord, Lexable, IsKey, TokenText, Word, NeedNames;
    var n := needs[0];
    assert n in needs;
    PlainTok(n);
    NeedToksSplit(needs);
    if |needs| > 1 {
      hide NeedToks;
      KeywordTok("and", TAnd);
      NeedAndMore(s, n);
      NeedNamesRead(s.(toks := s.toks[2..], edits := s.edits + [AddNeed(n)]), needs[1..]);
      NeedEditsSplit(s.edits, needs);
    } else {
      NeedAndNoMore(s, n);
      NeedEditsSplit(s.edits, needs);
      assert NeedEdits(needs[1..]) == [];
    }
  }

  lemma NeedsText(s: string)
    ensures " " + (" " + "needs" + (" " + s)) == "  needs " + s
    ensures '\n' !in s ==> '\n' !in "  needs " + s
  {
  }

  lemma NeedsRead(needs: seq<string>)
    requires needs != [] && NeedWordsOk(needs)
    ensures LineMeans("  needs " + JoinWith(needs, " and "), NeedEdits(needs))
  {
    hide Keyword, ClassifyWord, Lexable, LineMeans, IsKey, TokenText, LeadOf, Reads, Word, PrintTokens, JoinWith;
    NeedsWord();
    AndWord();
    KeywordTok("needs", TNeeds);
    NeedToksPrint(needs);
    var t1, s := NeedToks(needs), JoinWith(needs, " and ");
    var t0 := [Tok("needs")] + t1;
    PrintWord("needs", t1, " " + s);
    NeedsText(s);
    assert Printed(t0) == "  needs " + s;
    NeedsEdits(t0, needs);
    DirectiveLine("  needs " + s, t0, NeedEdits(needs));
  }

  lemma NeedsEdits(toks: seq<Token>, needs: seq<string>)
    requires needs != [] && NeedWordsOk(needs) && IsKey("and", TAnd)
    requires toks != [] && toks[0].ty.TNeeds? && toks[1..] == NeedToks(needs)
    ensures Reads(toks, NeedEdits(needs))
  {
    hide Keyword, ClassifyWord, Lexable, IsKey, TokenText, Word, NeedNames, Lower;
    assert needs[0] in needs;
    PlainTok(needs[0]);
    assert toks[1] == Tok(needs[0]);
    forall s, nl: Token | SameTokens(s, toks) && nl.ty.TNewline?
      ensures Directive(Rest(s, nl, [], [])) == Rest([], nl, NeedEdits(needs), [])
    {
      NeedNamesRead(Rest(s[1..], nl, [], []), needs);
      assert [] + NeedEdits(needs) == NeedEdits(needs);
    }
  }

  // ---- Environment ----

  predicate EnvWord(entry: (string, string)) {
    PlainName(entry.0) && '"' !in entry.1 && '\n' !in entry.1
  }

  lemma EnvText(key: string, v: string)
    requires '\n' !in key && '\n' !in v
    ensures " " + (" " + "set" + (" " + key + (" " + "to" + (" " + ("\"" + v + "\"") + "")))) == EnvLine((key, v))
    ensures '\n' !in EnvLine((key, v))
  {
    assert " " + "to" + (" " + ("\"" + v + "\"") + "") == " to \"" + v + "\"";
  }

  lemma EnvReads(entry: (string, string))
    requires EnvWord(entry)
    ensures LineMeans(EnvLine(entry), [SetEnv(entry.0, entry.1)])
  {
    hide Keyword, ClassifyWord, Lexable, LineMeans, IsKey, LeadOf, Reads, Word, PrintTokens, TokenText;
    var (key, v) := entry;
    SetWords();
    KeywordTok("set", TSet);
    KeywordTok("to", TTo);
    PlainTok(key);
    StrLexable(v);
    NothingPrinted();
    var t3, s3 := [Str(v)] + [], " " + ("\"" + v + "\"") + "";
    PrintCons(Str(v), []);
    var t2, s2 := [Tok("to")] + t3, " " + "to" + s3;
    PrintWord("to", t3, s3);
    var t1, s1 := [Tok(key)] + t2, " " + key + s2;
    PrintWord(key, t2, s2);
    var t0 := [Tok("set")] + t1;
    PrintWord("set", t1, s1);
    EnvText(key, v);
    assert Printed(t0) == EnvLine(entry);
    SetEdits(t0, key, v);
    DirectiveLine(EnvLine(entry), t0, [SetEnv(key, v)]);
  }

  lemma StrLexable(v: string)
    requires '"' !in v
    ensures Lexable(Str(v)) && TokenText(Str(v)) == "\"" + v + "\""
  {
  }

  lemma SetEdits(toks: seq<Token>, key: string, v: string)
    requires |toks| == 4 && toks[0].ty.TSet? && toks[1].ty.TIdent? && toks[2].ty.TTo? && toks[3].ty.TString?
    requires toks[1].val == key && toks[3].val == v
    ensures Reads(toks, [SetEnv(key, v)])
  {
    forall s, nl: Token | SameTokens(s, toks) && nl.ty.TNewline?
      ensures Directive(Rest(s, nl, [], [])) == Rest([], nl, [SetEnv(key, v)], [])
    {
    }
  }

  // ---- Lines that say nothing ----

  lemma WarningReads(build: bool)
    ensures LineMeans(WarningLine(build), [])
  {
    var line := WarningLine(build);
    var text := if build then BUILD_WARNING else IMAGE_WARNING;
    NoBreak();
    assert line == "  # " + text && '\n' !in "  # ";
    assert line[0] == ' ' && line[1] == ' ' && line[2] == '#';
    assert line[1..][1..] == line[2..];
    assert TrimSpaceLeft(line[2..]) == line[2..] && TrimSpaceLeft(line[1..]) == line[2..];
    TrimLead(line);
    LeadTrim(line);
    forall n, nl: Token | nl.ty.TNewline? ensures LineReads(line, n, nl, []) {
      CommentRead(line, n, nl);
    }
  }

  lemma CommentRead(line: string, n: int, nl: Token)
    requires nl.ty.TNewline? && Lead(line) == Some(true) && '\n' !in line
    ensures LineReads(line, n, nl, [])
  {
    hide IndexOf, TrimSpace;
    TrimLead(line);
    var c := LexLine(line, n).tokens[0];
    CommentSkipped(c, nl);
  }

  lemma CommentSkipped(c: Token, nl: Token)
    requires c.ty.TComment? && nl.ty.TNewline?
    ensures Lines([c] + [nl]) && Section([c] + [nl], false) == Body([], [], [], false)
  {
    assert ([c] + [nl])[1..] == [nl];
    NoMore(nl);
  }

  lemma NoBreak()
    ensures '\n' !in BUILD_WARNING && '\n' !in IMAGE_WARNING
  {
    BuildNoBreak();
    ImageNoBreak();
  }

  lemma BuildNoBreak()
    ensures '\n' !in BUILD_WARNING
  {
    assert BUILD_WARNING == "WARNING: build context detected," + " needs pre-built image";
    ContextNoBreak();
    TwoParts("WARNING: build context detected,", " needs pre-built image");
  }

  lemma ContextNoBreak()
    ensures '\n' !in "WARNING: build context detected,"
  {
    assert "WARNING: build context detected," == "WARNING: build" + " context detected,";
    TwoParts("WARNING: build", " context detected,");
  }

  lemma ImageNoBreak()
    ensures '\n' !in IMAGE_WARNING
  {
    assert IMAGE_WARNING == "WARNING: no image specified," + " build required";
    TwoParts("WARNING: no image specified,", " build required");
  }

  lemma TwoParts(a: string, b: string)
    requires '\n' !in a && '\n' !in b
    ensures '\n' !in a + b
  {
  }

  // ---- A line that the parser does not know ----

  lemma StorageIsNoKeyword()
    ensures CoreKeyword("storage") == None && ServiceKeyword("storage") == None
  {
  }

  lemma StorageIsNoPodKeyword()
    ensures PodKeyword("storage") == None && PolicyKeyword("storage") == None
  {
  }

  lemma StorageIsName()
    ensures PlainName("storage") && Lower("storage") == "storage"
    ensures LeadOf([Tok("storage"), Tok("10Gi")]) == Some(false)
  {
    hide Lexable, CoreKeyword, ServiceKeyword, PodKeyword, PolicyKeyword;
    StorageIsNoKeyword();
    StorageIsNoPodKeyword();
    assert Lower("storage") == "storage";
    assert !IsDigit("storage"[0]);
  }

  /** The line for a named volume is an unknown directive. */
  lemma StorageLineFails(n: int, nl: Token)
    requires nl.ty.TNewline?
    ensures var b := Section(LexLine("  storage 10Gi", n).tokens + [nl], false);
            b.edits == [] && |b.errs| == 1 && b.errs[0].msg == "unknown directive"
  {
    hide Keyword, ClassifyWord, Lexable, TokenText, LeadOf, Word, Section, LexLine, PrintTokens;
    StorageIsName();
    SizeIsName();
    PlainTok("storage");
    PlainTok("10Gi");
    NothingPrinted();
    var t1 := [Tok("10Gi")] + [];
    var toks := [Tok("storage")] + t1;
    PrintCons(Tok("10Gi"), []);
    PrintCons(Tok("storage"), t1);
    assert toks == [Tok("storage"), Tok("10Gi")];
    assert Printed(toks) == "  storage 10Gi";
    PrintedLine(toks, true, " ", n);
    UnknownSection(LexLine("  storage 10Gi", n).tokens, nl);
  }

  lemma UnknownSection(s: seq<Token>, nl: Token)
    requires |s| == 2 && nl.ty.TNewline? && s[0].ty.TIdent? && Lower(s[0].val) == "storage" && s[1].ty.TIdent?
    ensures var b := Section(s + [nl], false);
            b.edits == [] && |b.errs| == 1 && b.errs[0].msg == "unknown directive"
  {
    hide Section, Lower;
    var toks := s + [nl];
    LineLengthIs(toks, 2);
    assert toks[..2] == s && toks[2..] == [nl];
    var line := Rest(s, nl, [], []);
    assert LineOf(toks) == line;
    SectionStep(toks, false);
    UnknownLine(line);
    assert Behind(toks, Step(toks, false)) == [nl];
    NoMore(nl);
  }

  lemma UnknownLine(line: Rest)
    requires |line.toks| == 2 && line.toks[0].ty.TIdent? && Lower(line.toks[0].val) == "storage"
    requires line.toks[1].ty.TIdent?
    ensures var r := Directive(line);
            r.toks == [] && r.edits == line.edits &&
            r.errs == line.errs + [ParseError(line.toks[0].line, line.toks[0].col, "unknown directive")]
  {
    hide Lower;
    var f := Fail(line, "unknown directive");
    RecoverKeeps(f);
    assert Recover(Adv(Adv(f))) == Adv(Adv(f));
  }
}
