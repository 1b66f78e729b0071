/** What a whole recipe means (internal/recipe/parser.go:46-217), as a function of its tokens. */
module Recipes {
  import opened Ast
  import opened Tokens
  import opened Text
  import opened Edits
  import opened Directives
  import opened Sections

  function SkipNewlines(toks: seq<Token>): (r: seq<Token>)
    ensures |r| <= |toks| && (r != [] ==> !r[0].ty.TNewline?)
  {
    if toks != [] && toks[0].ty.TNewline? then SkipNewlines(toks[1..]) else toks
  }

  predicate AtEnd(toks: seq<Token>) { toks == [] || toks[0].ty.TEOF? }

  /** The value of "App:" or "Namespace:". Anything will do, even a keyword or the next header. */
  function HeaderValue(toks: seq<Token>): Option<string> {
    var t := SkipNewlines(toks);
    if AtEnd(t) then None else Some(t[0].val)
  }

  function BehindValue(toks: seq<Token>): (r: seq<Token>)
    ensures |r| <= |toks|
  {
    var t := SkipNewlines(toks);
    if AtEnd(t) then t else t[1..]
  }

  function Missing(toks: seq<Token>, msg: string): seq<ParseError> {
    var t := SkipNewlines(toks);
    if AtEnd(t) then [ParseError(First(t).line, First(t).col, msg)] else []
  }

  const NO_APP := "expected app name after App:"
  const NO_NAMESPACE := "expected namespace name after Namespace:"

  /** Lists under "Images:" and "CRDs:" also end where a namespace is declared. */
  predicate StopsList(toks: seq<Token>) { StopsSection(toks) || toks[0].ty.TNamespace? }

  /** A line of a list: what is unread of it, and the entry it declares, if any. */
  datatype Entry<T> = Entry(line: Rest, value: Option<T>)

  function AliasEntry(s: Rest): (r: Entry<(string, string)>)
    requires s.toks != [] && !Boundary(s.toks[0].ty)
    ensures Shorter(s, r.line)
  {
    if At(s, TIdent) && HasSuffix(s.toks[0].val, ":") then
      var name := TrimSuffix(s.toks[0].val, ":");
      var s := Adv(s);
      if AtName(s) then Entry(Adv(s), Some((name, s.toks[0].val)))
      else Entry(FailLine(s, "expected image reference after alias"), None)
    else Entry(FailLine(s, "expected alias definition (name: image-ref)"), None)
  }

  function CrdEntry(s: Rest): (r: Entry<string>)
    requires s.toks != [] && !Boundary(s.toks[0].ty)
    ensures Shorter(s, r.line)
  {
    if At(s, TFrom) then
      var s := Adv(s);
      if AtName(s) then Entry(Adv(s), Some(s.toks[0].val))
      else Entry(FailLine(s, "expected URL after 'from' in CRDs section"), None)
    else Entry(FailLine(s, "expected 'from <url>' in CRDs section"), None)
  }

  datatype Listed<T> = Listed(rest: seq<Token>, value: T, errs: seq<ParseError>)

  function AddAlias(aliases: map<string, string>, e: Option<(string, string)>): map<string, string> {
    match e case None => aliases case Some((name, image)) => aliases[name := image]
  }

  function Images(toks: seq<Token>, aliases: map<string, string>): (r: Listed<map<string, string>>)
    ensures |r.rest| <= |toks|
    decreases |toks|
  {
    if StopsList(toks) then Listed(toks, aliases, [])
    else if Insignificant(toks[0].ty) then Images(toks[1..], aliases)
    else
      var e := AliasEntry(LineOf(toks));
      var l := Images(Behind(toks, e.line), AddAlias(aliases, e.value));
      l.(errs := e.line.errs + l.errs)
  }

  function AddCrd(crds: seq<string>, e: Option<string>): seq<string> {
    match e case None => crds case Some(url) => crds + [url]
  }

  function Crds(toks: seq<Token>, crds: seq<string>): (r: Listed<seq<string>>)
    ensures |r.rest| <= |toks|
    decreases |toks|
  {
    if StopsList(toks) then Listed(toks, crds, [])
    else if Insignificant(toks[0].ty) then Crds(toks[1..], crds)
    else
      var e := CrdEntry(LineOf(toks));
      var l := Crds(Behind(toks, e.line), AddCrd(crds, e.value));
      l.(errs := e.line.errs + l.errs)
  }

  /** Up to the next section boundary. */
  function SkipToBoundary(toks: seq<Token>): (r: seq<Token>)
    ensures |r| <= |toks|
    ensures !StopsSection(toks) ==> |r| < |toks|
  {
    if StopsSection(toks) then toks else SkipToBoundary(toks[1..])
  }

  datatype Parsed = Parsed(recipe: Recipe, errs: seq<ParseError>)

  function Complain(errs: seq<ParseError>, p: Parsed): Parsed { p.(errs := errs + p.errs) }

  function HeaderSlice(header: Token, edits: seq<Edit>): Slice {
    ApplyAll(EmptySlice(Lower(header.val), header.line), edits)
  }

  function NameApp(toks: seq<Token>, r: Ast.Recipe): Ast.Recipe { r.(name := GetOr(HeaderValue(toks), r.name)) }

  function NameSpace(toks: seq<Token>, r: Ast.Recipe): Ast.Recipe {
    r.(namespace := GetOr(HeaderValue(toks), r.namespace))
  }

  function AddSlice(header: Token, edits: seq<Edit>, r: Ast.Recipe): Ast.Recipe {
    r.(slices := r.slices + [HeaderSlice(header, edits)])
  }

  function Unexpected(t: Token): seq<ParseError> { [ParseError(t.line, t.col, "unexpected token")] }

  /** What one top-level item adds to a recipe, what it leaves unread, and its complaints. */
  function Item(toks: seq<Token>, r: Ast.Recipe): (l: Listed<Ast.Recipe>)
    requires !AtEnd(toks)
    ensures |l.rest| < |toks|
  {
    var t := toks[1..];
    if Insignificant(toks[0].ty) then Listed(t, r, [])
    else if toks[0].ty.TApp? then Listed(BehindValue(t), NameApp(t, r), Missing(t, NO_APP))
    else if toks[0].ty.TNamespace? then Listed(BehindValue(t), NameSpace(t, r), Missing(t, NO_NAMESPACE))
    else if toks[0].ty.TImages? then
      var l := Images(t, r.aliases);
      Listed(l.rest, r.(aliases := l.value), l.errs)
    else if toks[0].ty.TCRDs? then
      var l := Crds(t, r.crds);
      Listed(l.rest, r.(crds := l.value), l.errs)
    else if toks[0].ty.TSectionHeader? then
      var b := Section(t, false);
      Listed(b.rest, AddSlice(toks[0], b.edits, r), b.errs)
    else Listed(SkipToBoundary(t), r, Unexpected(toks[0]))
  }

  /** What the tokens add to what is known of a recipe. */
  function Recipe(toks: seq<Token>, r: Ast.Recipe): Parsed
    decreases |toks|
  {
    if AtEnd(toks) then Parsed(r, [])
    else
      var l := Item(toks, r);
      Complain(l.errs, Recipe(l.rest, l.value))
  }

  const EMPTY_RECIPE := Ast.Recipe("", "", map[], [], [])

  lemma {:induction false} RecipeSkips(toks: seq<Token>, r: Ast.Recipe)
    ensures Recipe(SkipInsignificant(toks), r) == Recipe(toks, r)
  {
    hide Images, Crds, Section;
    if toks != [] && Insignificant(toks[0].ty) { RecipeSkips(toks[1..], r); }
  }

  /** A section that is followed by a boundary is parsed as if it were alone. */
  lemma SectionThenBoundary(header: Token, body: seq<Token>, rest: seq<Token>, r: Ast.Recipe)
    requires header.ty.TSectionHeader? && Lines(body) && StopsSection(SkipInsignificant(rest))
    ensures var b := Section(body, false);
            Recipe([header] + body + rest, r) == Complain(b.errs, Recipe(rest, AddSlice(header, b.edits, r)))
  {
    hide Section, AddSlice, StopsSection, Recipe, Images, Crds;
    var toks := [header] + body + rest;
    assert toks[1..] == body + rest;
    SectionConcat(body, rest, false);
    var b := Section(body, false);
    SectionSkips(rest, b.init);
    SectionStops(SkipInsignificant(rest), b.init);
    AfterIs(b.edits, b.errs, Section(rest, b.init));
    assert b.edits + [] == b.edits && b.errs + [] == b.errs;
    RecipeItem(toks, r);
    RecipeSkips(rest, AddSlice(header, b.edits, r));
  }

  lemma RecipeItem(toks: seq<Token>, r: Ast.Recipe)
    requires !AtEnd(toks)
    ensures var l := Item(toks, r); Recipe(toks, r) == Complain(l.errs, Recipe(l.rest, l.value))
  {
    hide Item;
  }

  lemma SectionStops(toks: seq<Token>, init: bool)
    requires StopsSection(toks)
    ensures Section(toks, init) == Body(toks, [], [], init)
  {
  }

  /** What every slice of a parsed recipe has: a name in lower case, and mounts that recipe text has
      words for. */
  ghost predicate SlicesParsed(slices: seq<Slice>) {
    forall s :: s in slices ==> Lower(s.name) == s.name && forall m :: m in s.mounts ==> RecipeMount(m)
  }

  lemma HeaderSliceParsed(header: Token, edits: seq<Edit>)
    ensures SlicesParsed([HeaderSlice(header, edits)])
  {
    hide Lower, ApplyAll;
    var s := EmptySlice(Lower(header.val), header.line);
    LowerIdempotent(header.val);
    NamesKept(s, edits);
    MountsAreParsed(s, edits);
  }

  lemma ItemParsed(toks: seq<Token>, r: Ast.Recipe)
    requires !AtEnd(toks) && SlicesParsed(r.slices)
    ensures SlicesParsed(Item(toks, r).value.slices)
  {
    hide Section, HeaderSlice, Images, Crds, Lower;
    if toks[0].ty.TSectionHeader? { HeaderSliceParsed(toks[0], Section(toks[1..], false).edits); }
  }

  lemma {:induction false} AllParsed(toks: seq<Token>, r: Ast.Recipe)
    requires SlicesParsed(r.slices)
    ensures SlicesParsed(Recipe(toks, r).recipe.slices)
    decreases |toks|
  {
    hide Item, SlicesParsed;
    if !AtEnd(toks) {
      ItemParsed(toks, r);
      AllParsed(Item(toks, r).rest, Item(toks, r).value);
    }
  }
}
