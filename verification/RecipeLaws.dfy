/** A whole recipe as it is written, from its application name to its sections, and what it is read as
    (internal/recipe/lexer.go, internal/recipe/parser.go:46-217). */
module RecipeLaws {
  import opened Ast
  import opened Tokens
  import opened Text
  import opened Lexer
  import opened LexerLaws
  import opened Edits
  import opened Directives
  import opened Sections
  import opened LineLaws
  import opened PhraseLaws
  import opened BodyLaws
  import I = ImportLines
  import T = ImportRoundTrip
  import P = Phrases
  import R = Recipes
  import V = Vocabulary
  import W = Importer

  /** A section: its name, its lines, and what they make of a slice. */
  datatype Part = Part(name: string, body: seq<string>, f: Slice -> Slice)

  datatype Alias = Alias(name: string, image: P.Piece)

  datatype Document = Document(app: string, namespace: string, aliases: seq<Alias>, crds: seq<P.Piece>,
                               parts: seq<Part>)

  function PartLines(p: Part): seq<string> { ["", p.name + ":"] + p.body }

  function PartsLines(parts: seq<Part>): seq<string> {
    if parts == [] then [] else PartLines(parts[0]) + PartsLines(parts[1..])
  }

  function AliasLines(aliases: seq<Alias>): seq<string> {
    seq(|aliases|, i requires 0 <= i < |aliases| =>
      P.LineText([P.Word(aliases[i].name + ":"), aliases[i].image]))
  }

  function CrdLines(crds: seq<P.Piece>): seq<string> {
    seq(|crds|, i requires 0 <= i < |crds| => P.LineText([P.Word("from"), crds[i]]))
  }

  function DocumentLines(d: Document): seq<string> {
    ["App: " + d.app] + (if d.namespace == "" then [] else ["Namespace: " + d.namespace])
    + (["Images:"] + AliasLines(d.aliases)) + (["CRDs:"] + CrdLines(d.crds)) + PartsLines(d.parts)
  }

  // ---- What it is read as ----

  /** The later of two aliases of one name counts. */
  function AliasMap(aliases: seq<Alias>): map<string, string> {
    if aliases == [] then map[]
    else map[aliases[0].name := P.Val(aliases[0].image)] + AliasMap(aliases[1..])
  }

  function Urls(crds: seq<P.Piece>): seq<string> { seq(|crds|, i requires 0 <= i < |crds| => P.Val(crds[i])) }

  /** The slices of sections that are written from a line on. */
  function SlicesFrom(parts: seq<Part>, first: int): seq<Slice> {
    if parts == [] then []
    else
      [parts[0].f(EmptySlice(Lower(parts[0].name), first + 1))]
      + SlicesFrom(parts[1..], first + |PartLines(parts[0])|)
  }

  function PartsFirst(d: Document): int {
    4 + |d.aliases| + |d.crds| + if d.namespace == "" then 0 else 1
  }

  // ---- Which documents ----

  predicate Name(s: string) { s != "" && forall c :: c in s ==> T.NameChar(c) }

  ghost predicate PartOk(p: Part) {
    && Name(p.name) && Lower(p.name) !in ["app", "namespace", "images", "crds"]
    && Says(p.body, p.f)
  }

  ghost predicate AliasOk(a: Alias) {
    && a.name != "" && 'a' <= a.name[0] <= 'z' && NameOk(a.image)
    && PieceOk(P.Word(a.name + ":")) && TokOf(P.Word(a.name + ":")).ty.TIdent?
  }

  ghost predicate DocumentOk(d: Document) {
    && Name(d.app) && (d.namespace != "" ==> Name(d.namespace))
    && (forall a :: a in d.aliases ==> AliasOk(a)) && (forall c :: c in d.crds ==> NameOk(c))
    && (forall p :: p in d.parts ==> PartOk(p))
  }

  // ---- Headers ----

  function HeaderType(name: string): TokenType {
    if Lower(name) == "images" then TImages else if Lower(name) == "crds" then TCRDs else TSectionHeader
  }

  lemma HeadLexed(name: string, n: int)
    requires Name(name) && Lower(name) != "app" && Lower(name) != "namespace"
    ensures '\n' !in name + ":"
    ensures LexLine(name + ":", n) == Lexed([Token(HeaderType(name), name, n, 1)], [])
  {
    hide TrimSpace, IndexOf, IsHeader, T.NameChar;
    var line := name + ":";
    T.HeaderShape(name);
    assert line[..|name|] == name && line[|name| + 1..] == "";
    assert name[0] in name && line[0] == name[0];
    T.NameCharPlain(name[0]);
    T.NothingTrimmed();
  }

  lemma NamespaceLexed(v: string, n: int)
    requires Name(v)
    ensures var line := "Namespace: " + v;
            '\n' !in line && LexLine(line, n) ==
              Lexed([Token(TNamespace, "Namespace", n, 1), Token(TIdent, v, n, 12)], [])
  {
    hide T.NameChar, TrimSpace, IndexOf, IsHeader;
    var line := "Namespace: " + v;
    T.AppEnds(v);
    NamespaceColon(v);
    assert line[|line| - 1] == v[|v| - 1];
    T.Untrimmed(line);
    T.TrimmedBehindBlank(v);
    NamespaceTrimmed();
    assert IsHeader(line) by { NamespaceIsHeader(v); }
  }

  lemma NamespaceIsHeader(v: string)
    requires Name(v)
    ensures IsHeader("Namespace: " + v)
  {
    hide T.NameChar, TrimSpace, IndexOf;
    var line := "Namespace: " + v;
    T.AppEnds(v);
    NamespaceColon(v);
    assert line[|line| - 1] == v[|v| - 1];
    T.Untrimmed(line);
  }

  lemma NamespaceColon(v: string)
    ensures var line := "Namespace: " + v;
            && IndexOf(line, ':') == 9 && line[..9] == "Namespace" && line[10..] == " " + v
            && |line| == 11 + |v| && line[0] == 'N' && !IsSpace('N') && !IsBlank('N')
            && forall i :: 0 <= i < 9 ==> !IsBlank(line[i])
  {
    hide IndexOf;
    T.ColonAt("Namespace: " + v, 9);
  }

  lemma NamespaceTrimmed()
    ensures TrimSpace("Namespace") == "Namespace" && Lower("Namespace") == "namespace"
  {
    T.Untrimmed("Namespace");
    assert Lower("Namespace") == "namespace";
  }

  // ---- Sections ----

  /** The body of a section behind the line break of its header. */
  lemma PartBody(p: Part, br: Token, first: int)
    requires PartOk(p) && br.ty.TNewline?
    ensures T.LexedLines(p.body, first).errs == [] && T.Unbroken(p.body)
    ensures var body := [br] + T.LexedLines(p.body, first).tokens;
            && Lines(body) && Section(body, false).errs == []
            && forall s :: Meaning(s, Section(body, false)) == p.f(s)
  {
    hide LexLine, T.LexedLines, Lines, Step, Open, ApplyAll;
    assert SaysAt(p.body, first, p.f);
    var body := T.LexedLines(p.body, first).tokens;
    assert ([br] + body)[1..] == body;
    T.BreakLines(br);
    T.LinesConcat([br], body);
  }

  lemma PartLexed(p: Part, first: int)
    requires PartOk(p)
    ensures var body := T.LexedLines(p.body, first + 2);
            var head := [T.LineBreak(first, ""), Token(TSectionHeader, p.name, first + 1, 1),
                         T.LineBreak(first + 1, p.name + ":")];
            T.LexedLines(PartLines(p), first) == Lexed(head + body.tokens, body.errs)
    ensures '\n' !in p.name + ":"
  {
    hide LexLine, Name, Says;
    assert PartLines(p)[1..][1..] == p.body;
    T.EmptyLexed(first);
    HeadLexed(p.name, first + 1);
  }

  ghost predicate PartsRead(parts: seq<Part>, first: int, end: Token, r: Recipe) {
    var l := T.LexedLines(PartsLines(parts), first);
    && l.errs == [] && T.Unbroken(PartsLines(parts)) && StopsSection(SkipInsignificant(l.tokens + [end]))
    && R.Recipe(l.tokens + [end], r) == R.Parsed(r.(slices := r.slices + SlicesFrom(parts, first)), [])
  }

  lemma {:induction false} AllPartsRead(parts: seq<Part>, first: int, end: Token, r: Recipe)
    requires end.ty.TEOF? && forall p :: p in parts ==> PartOk(p)
    ensures PartsRead(parts, first, end, r)
    decreases |parts|
  {
    hide LexLine, PartOk, T.LexedLines, PartLines, R.Recipe, Section;
    if parts == [] {
      NoParts(first, end, r);
    } else {
      OnePart(parts, first, end, r);
    }
  }

  lemma NoParts(first: int, end: Token, r: Recipe)
    requires end.ty.TEOF?
    ensures PartsRead([], first, end, r)
  {
    assert T.LexedLines([], first).tokens + [end] == [end];
    assert r.slices + [] == r.slices;
  }

  lemma {:induction false} OnePart(parts: seq<Part>, first: int, end: Token, r: Recipe)
    requires end.ty.TEOF? && parts != [] && forall p :: p in parts ==> PartOk(p)
    ensures PartsRead(parts, first, end, r)
    decreases |parts|, 0
  {
    hide LexLine, PartOk, T.LexedLines, R.Recipe, Section, R.AddSlice, Lines, Meaning;
    var p, others := parts[0], parts[1..];
    assert p in parts;
    var header := Token(TSectionHeader, p.name, first + 1, 1);
    var br, br2 := T.LineBreak(first, ""), T.LineBreak(first + 1, p.name + ":");
    var body := T.LexedLines(p.body, first + 2).tokens;
    var at := first + |PartLines(p)|;
    var rest := T.LexedLines(PartsLines(others), at).tokens + [end];
    PartBody(p, br2, first + 2);
    PartLexed(p, first);
    T.LexedConcat(PartLines(p), PartsLines(others), first);
    var toks := T.LexedLines(PartsLines(parts), first).tokens + [end];
    assert toks == [br] + ([header] + ([br2] + body) + rest);
    var edits := Section([br2] + body, false).edits;
    AllPartsRead(others, at, end, R.AddSlice(header, edits, r));
    SectionReadOpen(br, header, [br2] + body, rest, r);
    PartSlice(p, header, [br2] + body, r);
    assert r.slices + [p.f(EmptySlice(Lower(p.name), first + 1))] + SlicesFrom(others, at)
           == r.slices + SlicesFrom(parts, first);
  }

  lemma PartSlice(p: Part, header: Token, body: seq<Token>, r: Recipe)
    requires forall s :: Meaning(s, Section(body, false)) == p.f(s)
    ensures R.AddSlice(header, Section(body, false).edits, r) ==
              r.(slices := r.slices + [p.f(EmptySlice(Lower(header.val), header.line))])
  {
    hide Section, ApplyAll, EmptySlice, Lower;
    var s := EmptySlice(Lower(header.val), header.line);
    assert Meaning(s, Section(body, false)) == p.f(s);
  }

  /** A section without complaints in front of a boundary, also if it ends in an open init block. */
  lemma SectionReadOpen(br: Token, header: Token, body: seq<Token>, rest: seq<Token>, r: Recipe)
    requires br.ty.TNewline? && header.ty.TSectionHeader? && Lines(body)
    requires Section(body, false).errs == [] && StopsSection(SkipInsignificant(rest))
    ensures R.Recipe([br] + ([header] + body + rest), r) ==
              R.Recipe(rest, R.AddSlice(header, Section(body, false).edits, r))
    ensures StopsSection(SkipInsignificant([br] + ([header] + body + rest)))
  {
    hide Section, R.Recipe, R.AddSlice, Lines;
    var toks := [header] + body + rest;
    assert ([br] + toks)[1..] == toks;
    R.RecipeSkips([br] + toks, r);
    R.RecipeSkips(toks, r);
    R.SectionThenBoundary(header, body, rest, r);
  }

  // ---- Lists ----

  /** The tokens of a line, without its end, and what comes behind. */
  lemma FirstOfMany(s: seq<Token>, nl: Token, more: seq<Token>)
    requires s != [] && nl.ty.TNewline? && forall i :: 0 <= i < |s| ==> !Structural(s[i].ty)
    ensures var toks := s + [nl] + more;
            && LineOf(toks) == Rest(s, nl, [], []) && LineLength(toks) == |s| && toks[|s|..] == [nl] + more
            && toks != [] && !Insignificant(toks[0].ty) && !R.StopsList(toks)
  {
    hide LineLength, Structural;
    I.LineWhole(s, nl);
    SameFirstLine(s + [nl], more);
    assert (s + [nl] + more)[0] == s[0];
    Inline(s[0].ty);
    assert |LineOf(s + [nl] + more).toks| == LineLength(s + [nl] + more);
  }

  lemma Inline(ty: TokenType)
    requires !Structural(ty)
    ensures !Insignificant(ty) && !Boundary(ty) && !ty.TEOF? && !ty.TNamespace?
  {
  }

  function AliasPieces(a: Alias): seq<P.Piece> { [P.Word(a.name + ":"), a.image] }

  function CrdPieces(c: P.Piece): seq<P.Piece> { [P.Word("from"), c] }

  ghost predicate IsAlias(s: seq<Token>, a: Alias) {
    && |s| == 2 && s[0].ty.TIdent? && s[0].val == a.name + ":"
    && (s[1].ty.TIdent? || s[1].ty.TString?) && s[1].val == P.Val(a.image)
  }

  ghost predicate IsCrd(s: seq<Token>, c: P.Piece) {
    |s| == 2 && s[0].ty.TFrom? && (s[1].ty.TIdent? || s[1].ty.TString?) && s[1].val == P.Val(c)
  }

  lemma AliasTokens(a: Alias)
    requires AliasOk(a)
    ensures PiecesOk(AliasPieces(a)) && Begins(AliasPieces(a))
    ensures forall s :: SameTokens(s, ToksOf(AliasPieces(a))) ==> IsAlias(s, a)
  {
    hide NameOk, PieceOk, TokOf, P.Val;
    PieceTok(P.Word(a.name + ":"));
    NameTok(a.image);
    WordValue(a.name + ":");
    assert (a.name + ":")[0] == a.name[0];
  }

  lemma WordValue(w: string)
    ensures P.Val(P.Word(w)) == w
  {
  }

  lemma CrdTokens(c: P.Piece)
    requires NameOk(c)
    ensures PiecesOk(CrdPieces(c)) && Begins(CrdPieces(c))
    ensures forall s :: SameTokens(s, ToksOf(CrdPieces(c))) ==> IsCrd(s, c)
  {
    hide NameOk, PieceOk, TokOf, P.Val;
    V.FromReads();
    NameTok(c);
  }

  lemma AliasRead(s: seq<Token>, nl: Token, a: Alias)
    requires IsAlias(s, a)
    ensures R.AliasEntry(Rest(s, nl, [], [])) == R.Entry(Rest([], nl, [], []), Some((a.name, P.Val(a.image))))
    ensures forall i :: 0 <= i < |s| ==> !Structural(s[i].ty)
  {
    hide P.Val;
    Suffixes(s);
    assert (a.name + ":")[|a.name|..] == ":";
    assert (a.name + ":")[..|a.name|] == a.name;
  }

  lemma CrdRead(s: seq<Token>, nl: Token, c: P.Piece)
    requires IsCrd(s, c)
    ensures R.CrdEntry(Rest(s, nl, [], [])) == R.Entry(Rest([], nl, [], []), Some(P.Val(c)))
    ensures forall i :: 0 <= i < |s| ==> !Structural(s[i].ty)
  {
    hide P.Val;
    Suffixes(s);
  }

  lemma ImagesStep(s: seq<Token>, nl: Token, more: seq<Token>, a: Alias, m: map<string, string>)
    requires IsAlias(s, a) && nl.ty.TNewline?
    ensures R.Images(s + [nl] + more, m) == R.Images(more, m[a.name := P.Val(a.image)])
  {
    hide R.AliasEntry, LineOf, LineLength, P.Val, R.Images, IsAlias;
    AliasRead(s, nl, a);
    assert s != [] by { AliasLength(s, a); }
    FirstOfMany(s, nl, more);
    ImagesFirst(s + [nl] + more, m);
    assert ([nl] + more)[1..] == more;
    var l := R.Images([nl] + more, m[a.name := P.Val(a.image)]);
    assert [] + l.errs == l.errs;
    ImagesFirst([nl] + more, m[a.name := P.Val(a.image)]);
  }

  lemma AliasLength(s: seq<Token>, a: Alias)
    requires IsAlias(s, a)
    ensures |s| == 2
  {
  }

  /** One unfolding. */
  lemma ImagesFirst(toks: seq<Token>, m: map<string, string>)
    requires toks != [] && !R.StopsList(toks)
    ensures R.Images(toks, m) ==
              if Insignificant(toks[0].ty) then R.Images(toks[1..], m)
              else
                var e := R.AliasEntry(LineOf(toks));
                var l := R.Images(Behind(toks, e.line), R.AddAlias(m, e.value));
                l.(errs := e.line.errs + l.errs)
  {
    hide R.AliasEntry, LineOf, LineLength;
  }

  lemma CrdsStep(s: seq<Token>, nl: Token, more: seq<Token>, c: P.Piece, urls: seq<string>)
    requires IsCrd(s, c) && nl.ty.TNewline?
    ensures R.Crds(s + [nl] + more, urls) == R.Crds(more, urls + [P.Val(c)])
  {
    hide R.CrdEntry, LineOf, LineLength, P.Val, R.Crds, IsCrd;
    CrdRead(s, nl, c);
    assert s != [] by { CrdLength(s, c); }
    FirstOfMany(s, nl, more);
    CrdsFirst(s + [nl] + more, urls);
    assert ([nl] + more)[1..] == more;
    var l := R.Crds([nl] + more, urls + [P.Val(c)]);
    assert [] + l.errs == l.errs;
    CrdsFirst([nl] + more, urls + [P.Val(c)]);
  }

  lemma CrdLength(s: seq<Token>, c: P.Piece)
    requires IsCrd(s, c)
    ensures |s| == 2
  {
  }

  lemma CrdsFirst(toks: seq<Token>, urls: seq<string>)
    requires toks != [] && !R.StopsList(toks)
    ensures R.Crds(toks, urls) ==
              if Insignificant(toks[0].ty) then R.Crds(toks[1..], urls)
              else
                var e := R.CrdEntry(LineOf(toks));
                var l := R.Crds(Behind(toks, e.line), R.AddCrd(urls, e.value));
                l.(errs := e.line.errs + l.errs)
  {
    hide R.CrdEntry, LineOf, LineLength;
  }

  lemma {:induction false} ListEnds(rest: seq<Token>, m: map<string, string>, urls: seq<string>)
    requires R.StopsList(SkipInsignificant(rest))
    ensures R.Images(rest, m) == R.Listed(SkipInsignificant(rest), m, [])
    ensures R.Crds(rest, urls) == R.Listed(SkipInsignificant(rest), urls, [])
  {
    hide R.AliasEntry, R.CrdEntry;
    if rest != [] && Insignificant(rest[0].ty) { ListEnds(rest[1..], m, urls); }
  }

  lemma NoAliases(m: map<string, string>)
    ensures m + AliasMap([]) == m
  {
  }

  lemma OneMoreAlias(m: map<string, string>, aliases: seq<Alias>)
    requires aliases != []
    ensures m[aliases[0].name := P.Val(aliases[0].image)] + AliasMap(aliases[1..]) == m + AliasMap(aliases)
  {
    hide P.Val;
  }

  lemma AliasLine(a: Alias, n: int) returns (s: seq<Token>)
    requires AliasOk(a)
    ensures IsAlias(s, a) && '\n' !in P.LineText(AliasPieces(a))
    ensures T.LexedLines([P.LineText(AliasPieces(a))], n) ==
              Lexed(s + [T.LineBreak(n, P.LineText(AliasPieces(a)))], [])
  {
    hide LexLine, AliasOk, IsAlias, PiecesOk, Begins, ToksOf, SameTokens, P.LineText, T.LexedLines;
    AliasTokens(a);
    LineLexed(AliasPieces(a), n);
    OneLexed(P.LineText(AliasPieces(a)), n);
    s := LexLine(P.LineText(AliasPieces(a)), n).tokens;
  }

  lemma {:induction false} AliasesRead(aliases: seq<Alias>, first: int, rest: seq<Token>, m: map<string, string>)
    requires (forall a :: a in aliases ==> AliasOk(a)) && R.StopsList(SkipInsignificant(rest))
    ensures T.Unbroken(AliasLines(aliases))
    ensures var l := T.LexedLines(AliasLines(aliases), first);
            l.errs == [] && R.Images(l.tokens + rest, m) == R.Listed(SkipInsignificant(rest), m + AliasMap(aliases), [])
  {
    hide LexLine, R.Images, R.Crds, AliasOk, IsAlias, P.LineText, T.LexedLines, P.Val, AliasMap, R.StopsList,
      SkipInsignificant;
    if aliases == [] {
      NoLines(first);
      assert [] + rest == rest;
      assert m + AliasMap([]) == m by { NoAliases(m); }
      ListEnds(rest, m, []);
    } else {
      var a := aliases[0];
      var line := P.LineText(AliasPieces(a));
      assert a in aliases;
      var s := AliasLine(a, first);
      assert AliasLines(aliases) == [line] + AliasLines(aliases[1..]);
      T.LexedConcat([line], AliasLines(aliases[1..]), first);
      var more := T.LexedLines(AliasLines(aliases[1..]), first + 1).tokens;
      var nl := T.LineBreak(first, line);
      var key, v := a.name, P.Val(a.image);
      AliasesRead(aliases[1..], first + 1, rest, m[key := v]);
      ImagesStep(s, nl, more + rest, a, m);
      assert s + [nl] + more + rest == s + [nl] + (more + rest);
      OneMoreAlias(m, aliases);
    }
  }

  lemma {:induction false} CrdsRead(crds: seq<P.Piece>, first: int, rest: seq<Token>, urls: seq<string>)
    requires (forall c :: c in crds ==> NameOk(c)) && R.StopsList(SkipInsignificant(rest))
    ensures T.Unbroken(CrdLines(crds))
    ensures var l := T.LexedLines(CrdLines(crds), first);
            l.errs == [] && R.Crds(l.tokens + rest, urls) == R.Listed(SkipInsignificant(rest), urls + Urls(crds), [])
  {
    hide LexLine, R.Images, R.Crds, NameOk, IsCrd, PiecesOk, Begins, ToksOf, SameTokens, P.LineText, T.LexedLines,
      P.Val;
    if crds == [] {
      NoLines(first);
      assert [] + rest == rest && urls + [] == urls;
      ListEnds(rest, map[], urls);
    } else {
      var c := crds[0];
      var line := P.LineText(CrdPieces(c));
      assert c in crds;
      CrdTokens(c);
      LineLexed(CrdPieces(c), first);
      OneLexed(line, first);
      assert CrdLines(crds) == [line] + CrdLines(crds[1..]);
      T.LexedConcat([line], CrdLines(crds[1..]), first);
      var more := T.LexedLines(CrdLines(crds[1..]), first + 1).tokens;
      var s, nl := LexLine(line, first).tokens, T.LineBreak(first, line);
      CrdsRead(crds[1..], first + 1, rest, urls + [P.Val(c)]);
      CrdsStep(s, nl, more + rest, c, urls);
      assert s + [nl] + more + rest == s + [nl] + (more + rest);
      assert Urls(crds) == [P.Val(c)] + Urls(crds[1..]);
      assert urls + [P.Val(c)] + Urls(crds[1..]) == urls + Urls(crds);
    }
  }

  // ---- The whole text ----

  lemma NothingComplained(p: R.Parsed)
    ensures R.Complain([], p) == p
  {
    assert [] + p.errs == p.errs;
  }

  lemma CrdsItem(header: Token, nl: Token, list: seq<Token>, rest: seq<Token>, crds: seq<P.Piece>, r: Recipe)
    requires header.ty.TCRDs? && nl.ty.TNewline?
    requires R.Crds(list + rest, r.crds) == R.Listed(SkipInsignificant(rest), r.crds + Urls(crds), [])
    ensures R.Recipe([header, nl] + list + rest, r) == R.Recipe(rest, r.(crds := r.crds + Urls(crds)))
    ensures StopsSection(SkipInsignificant([header, nl] + list + rest))
  {
    hide R.Recipe, R.Crds, R.Images, Section;
    var toks := [header, nl] + list + rest;
    assert toks[1..] == [nl] + (list + rest) && ([nl] + (list + rest))[1..] == list + rest;
    CrdsFirst(toks[1..], r.crds);
    R.RecipeItem(toks, r);
    var r2 := r.(crds := r.crds + Urls(crds));
    NothingComplained(R.Recipe(SkipInsignificant(rest), r2));
    R.RecipeSkips(rest, r2);
  }

  lemma ImagesItem(header: Token, nl: Token, list: seq<Token>, rest: seq<Token>, aliases: seq<Alias>, r: Recipe)
    requires header.ty.TImages? && nl.ty.TNewline?
    requires R.Images(list + rest, r.aliases) == R.Listed(SkipInsignificant(rest), r.aliases + AliasMap(aliases), [])
    ensures R.Recipe([header, nl] + list + rest, r) == R.Recipe(rest, r.(aliases := r.aliases + AliasMap(aliases)))
    ensures StopsSection(SkipInsignificant([header, nl] + list + rest))
  {
    hide R.Recipe, R.Crds, R.Images, Section;
    var toks := [header, nl] + list + rest;
    assert toks[1..] == [nl] + (list + rest) && ([nl] + (list + rest))[1..] == list + rest;
    ImagesFirst(toks[1..], r.aliases);
    R.RecipeItem(toks, r);
    var r2 := r.(aliases := r.aliases + AliasMap(aliases));
    NothingComplained(R.Recipe(SkipInsignificant(rest), r2));
    R.RecipeSkips(rest, r2);
  }

  lemma NamespaceItem(header: Token, name: Token, nl: Token, rest: seq<Token>, r: Recipe)
    requires header.ty.TNamespace? && name.ty.TIdent? && nl.ty.TNewline?
    ensures R.Recipe([header, name, nl] + rest, r) == R.Recipe(rest, r.(namespace := name.val))
  {
    hide R.Recipe, R.Crds, R.Images, Section;
    var toks, behind := [header, name, nl] + rest, [nl] + rest;
    assert toks[1..] == [name] + behind && toks[1..][1..] == behind && behind[1..] == rest;
    assert R.SkipNewlines(toks[1..]) == toks[1..];
    R.RecipeItem(toks, r);
    var r2 := r.(namespace := name.val);
    NothingComplained(R.Recipe(behind, r2));
    R.RecipeSkips(behind, r2);
    R.RecipeSkips(rest, r2);
  }

  /** Lines from first on that turn r into q without complaints, with a boundary in front. */
  ghost predicate ReadsTo(lines: seq<string>, first: int, end: Token, r: Recipe, q: Recipe) {
    var l := T.LexedLines(lines, first);
    && l.errs == [] && T.Unbroken(lines) && StopsSection(SkipInsignificant(l.tokens + [end]))
    && R.Recipe(l.tokens + [end], r) == R.Parsed(q, [])
  }

  /** A header with its list, and what follows. */
  lemma HeadedLexed(head: string, tok: Token, list: seq<string>, lines: seq<string>, first: int)
    requires T.LexedLines([head], first) == Lexed([tok, T.LineBreak(first, head)], [])
    requires T.LexedLines(list, first + 1).errs == []
    ensures var l := T.LexedLines(lines, first + 1 + |list|);
            T.LexedLines([head] + list + lines, first) ==
              Lexed([tok, T.LineBreak(first, head)] + T.LexedLines(list, first + 1).tokens + l.tokens, l.errs)
  {
    hide T.LexedLines;
    T.LexedConcat([head] + list, lines, first);
    T.LexedConcat([head], list, first);
    var l := T.LexedLines(lines, first + 1 + |list|);
    assert [] + [] + l.errs == l.errs;
  }

  lemma UnbrokenList(head: string, list: seq<string>, lines: seq<string>)
    requires '\n' !in head && T.Unbroken(list) && T.Unbroken(lines)
    ensures T.Unbroken([head] + list + lines)
  {
  }

  /** A list that turns r into r2, in front of lines that turn r2 into q. */
  lemma ListThen(head: string, header: Token, list: seq<string>, lines: seq<string>, first: int, end: Token,
                 r: Recipe, r2: Recipe, q: Recipe)
    requires T.LexedLines([head], first) == Lexed([header, T.LineBreak(first, head)], [])
    requires T.LexedLines(list, first + 1).errs == [] && T.Unbroken(list) && '\n' !in head
    requires ReadsTo(lines, first + 1 + |list|, end, r2, q)
    requires var rest := T.LexedLines(lines, first + 1 + |list|).tokens + [end];
             var toks := [header, T.LineBreak(first, head)] + T.LexedLines(list, first + 1).tokens + rest;
             R.Recipe(toks, r) == R.Recipe(rest, r2) && StopsSection(SkipInsignificant(toks))
    ensures ReadsTo([head] + list + lines, first, end, r, q)
  {
    hide R.Recipe, T.LexedLines, T.Unbroken, SkipInsignificant, StopsSection;
    HeadedLexed(head, header, list, lines, first);
    UnbrokenList(head, list, lines);
    var rest := T.LexedLines(lines, first + 1 + |list|).tokens;
    var front := [header, T.LineBreak(first, head)] + T.LexedLines(list, first + 1).tokens;
    assert front + rest + [end] == front + (rest + [end]);
  }

  lemma ReadsToStops(lines: seq<string>, first: int, end: Token, r: Recipe, q: Recipe)
    requires ReadsTo(lines, first, end, r, q)
    ensures R.StopsList(SkipInsignificant(T.LexedLines(lines, first).tokens + [end]))
  {
    hide R.Recipe, T.LexedLines, T.Unbroken, SkipInsignificant;
  }

  lemma CrdsThen(crds: seq<P.Piece>, lines: seq<string>, first: int, end: Token, r: Recipe, q: Recipe)
    requires forall c :: c in crds ==> NameOk(c)
    requires ReadsTo(lines, first + 1 + |crds|, end, r.(crds := r.crds + Urls(crds)), q)
    ensures ReadsTo(["CRDs:"] + CrdLines(crds) + lines, first, end, r, q)
  {
    hide ReadsTo, NameOk, R.Recipe, R.Crds, T.LexedLines, CrdLines, T.Unbroken, Urls, SkipInsignificant, R.StopsList,
      StopsSection;
    var r2 := r.(crds := r.crds + Urls(crds));
    ReadsToStops(lines, first + 1 + |crds|, end, r2, q);
    var rest := T.LexedLines(lines, first + 1 + |crds|).tokens + [end];
    CrdsRead(crds, first + 1, rest, r.crds);
    ListHeaders(first);
    ListLengths([], crds);
    var header := Token(TCRDs, "CRDs", first, 1);
    CrdsItem(header, T.LineBreak(first, "CRDs:"), T.LexedLines(CrdLines(crds), first + 1).tokens, rest, crds, r);
    ListThen("CRDs:", header, CrdLines(crds), lines, first, end, r, r2, q);
  }

  lemma ImagesThen(head: string, aliases: seq<Alias>, lines: seq<string>, first: int, end: Token, r: Recipe, q: Recipe)
    requires forall a :: a in aliases ==> AliasOk(a)
    requires T.LexedLines([head], first) == Lexed([Token(TImages, "Images", first, 1), T.LineBreak(first, head)], [])
    requires '\n' !in head
    requires ReadsTo(lines, first + 1 + |aliases|, end, r.(aliases := r.aliases + AliasMap(aliases)), q)
    ensures ReadsTo([head] + AliasLines(aliases) + lines, first, end, r, q)
  {
    hide ReadsTo, AliasOk, R.Recipe, R.Images, T.LexedLines, AliasLines, AliasMap, T.Unbroken, SkipInsignificant,
      R.StopsList, StopsSection;
    var r2 := r.(aliases := r.aliases + AliasMap(aliases));
    ReadsToStops(lines, first + 1 + |aliases|, end, r2, q);
    var rest := T.LexedLines(lines, first + 1 + |aliases|).tokens + [end];
    AliasesRead(aliases, first + 1, rest, r.aliases);
    ListLengths(aliases, []);
    var header := Token(TImages, "Images", first, 1);
    ImagesItem(header, T.LineBreak(first, head), T.LexedLines(AliasLines(aliases), first + 1).tokens, rest, aliases, r);
    ListThen(head, header, AliasLines(aliases), lines, first, end, r, r2, q);
  }

  lemma ListLengths(aliases: seq<Alias>, crds: seq<P.Piece>)
    ensures |AliasLines(aliases)| == |aliases| && |CrdLines(crds)| == |crds|
  {
    hide P.LineText;
  }

  lemma ListHeaders(n: int)
    ensures T.LexedLines(["Images:"], n) == Lexed([Token(TImages, "Images", n, 1), T.LineBreak(n, "Images:")], [])
    ensures T.LexedLines(["CRDs:"], n) == Lexed([Token(TCRDs, "CRDs", n, 1), T.LineBreak(n, "CRDs:")], [])
    ensures '\n' !in "Images:" && '\n' !in "CRDs:"
  {
    hide LexLine, T.LexedLines, Lower;
    ListWords();
    assert "Images" + ":" == "Images:" && "CRDs" + ":" == "CRDs:";
    HeadLexed("Images", n);
    HeadLexed("CRDs", n);
    OneLexed("Images:", n);
    OneLexed("CRDs:", n);
  }

  lemma ListWords()
    ensures Name("Images") && Name("CRDs") && Lower("Images") == "images" && Lower("CRDs") == "crds"
  {
    assert Lower("Images") == "images";
    assert Lower("CRDs") == "crds";
  }

  lemma NamespaceThen(v: string, lines: seq<string>, first: int, end: Token, r: Recipe, q: Recipe)
    requires Name(v) && ReadsTo(lines, first + 1, end, r.(namespace := v), q)
    ensures ["Namespace: " + v] + lines != []
    ensures var l := T.LexedLines(["Namespace: " + v] + lines, first);
            l.errs == [] && T.Unbroken(["Namespace: " + v] + lines) && R.Recipe(l.tokens + [end], r) == R.Parsed(q, [])
  {
    hide LexLine, R.Recipe, T.LexedLines, Name, SkipInsignificant;
    var line := "Namespace: " + v;
    NamespaceLexed(v, first);
    OneLexed(line, first);
    T.LexedConcat([line], lines, first);
    var header, name, nl := Token(TNamespace, "Namespace", first, 1), Token(TIdent, v, first, 12),
      T.LineBreak(first, line);
    var rest := T.LexedLines(lines, first + 1).tokens + [end];
    assert T.LexedLines([line] + lines, first).tokens + [end] == [header, name, nl] + rest;
    NamespaceItem(header, name, nl, rest, r);
  }

  /** A recipe is read as it is written: its name and namespace, its image aliases, its addresses, and a
      slice for each section, which its lines make of an empty one. */
  lemma DocumentRead(d: Document)
    requires DocumentOk(d)
    ensures var lexed := Lex(W.Unlines(DocumentLines(d)));
            && lexed.errs == []
            && R.Recipe(lexed.tokens, R.EMPTY_RECIPE) ==
                 R.Parsed(Recipe(d.app, d.namespace, AliasMap(d.aliases), Urls(d.crds),
                                 SlicesFrom(d.parts, PartsFirst(d))), [])
  {
    hide LexLine, R.Recipe, T.LexedLines, Lex, W.Unlines, T.NameChar, AliasOk, NameOk, PartOk, PartsLines, AliasLines,
      CrdLines, SlicesFrom, Urls, AliasMap, SkipInsignificant;
    var lines := DocumentLines(d);
    var end := Token(TEOF, "", 1 + |lines|, 1);
    var k := if d.namespace == "" then 2 else 3;
    var others := lines[1..];
    assert lines == ["App: " + d.app] + others;
    var r0 := R.EMPTY_RECIPE.(name := d.app);
    var r1 := r0.(namespace := d.namespace);
    var r2 := r1.(aliases := r1.aliases + AliasMap(d.aliases));
    var r3 := r2.(crds := r2.crds + Urls(d.crds));
    var q := r3.(slices := r3.slices + SlicesFrom(d.parts, PartsFirst(d)));
    AllPartsRead(d.parts, PartsFirst(d), end, r3);
    CrdsThen(d.crds, PartsLines(d.parts), k + 1 + |d.aliases|, end, r2, q);
    var from := ["CRDs:"] + CrdLines(d.crds) + PartsLines(d.parts);
    ListHeaders(k);
    ImagesThen("Images:", d.aliases, from, k, end, r1, q);
    var lists := ["Images:"] + AliasLines(d.aliases) + from;
    assert others == (if d.namespace == "" then [] else ["Namespace: " + d.namespace]) + lists;
    if d.namespace == "" {
      assert others == lists;
    } else {
      NamespaceThen(d.namespace, lists, 2, end, r0, q);
    }
    T.AppLexed(d.app, 1);
    T.AppThen(d.app, others, end);
    T.TextRead(lines);
    assert T.LexedLines(lines, 1).errs + [] == T.LexedLines(lines, 1).errs;
    assert q == Recipe(d.app, d.namespace, AliasMap(d.aliases), Urls(d.crds), SlicesFrom(d.parts, PartsFirst(d)));
  }
}
