/** From recipe text through parser, plan and validation to Kubernetes objects: what holds of the whole
    way (internal/recipe/parser.go, internal/plan/build.go, internal/plan/validate.go,
    internal/k8s/compiler.go). */
module Pipeline {
  import opened Ast
  import opened Build
  import opened BuildLaws
  import opened StableSort
  import opened Kube
  import Lexer
  import Parser
  import Plan
  import R = Recipes
  import D = RecipeLaws
  import W = Importer
  import Refs = KubeReferences
  import Text
  import Validate

  /** The recipe of a text. */
  function RecipeOf(source: string): Recipe { R.Recipe(Lexer.Lex(source).tokens, R.EMPTY_RECIPE).recipe }

  lemma PlanSlice(r: Recipe, p: Plan.AppPlan, i: nat)
    requires PlanOf(r, p) && i < |p.slices|
    ensures |p.slices| == |r.slices|
    ensures p.slices[i].name == Text.Lower(r.slices[i].name) && p.slices[i].mounts == r.slices[i].mounts
    ensures p.slices[i].needs == r.slices[i].needs
  {
    hide Text.Lower, Text.Contains, DefaultsOf, NamedKind;
    var slices := ResolvedSlices(r);
    var plain: seq<Plan.Slice> :| |plain| == |slices| && forall i :: 0 <= i < |slices| ==>
      Converted(slices[i]) == Some(plain[i]) && p.slices[i] == Wired(plain[i], plain, slices, r.name);
    assert Converted(slices[i]) == Some(plain[i]);
  }

  lemma PlanMounts(r: Recipe, p: Plan.AppPlan)
    requires PlanOf(r, p) && R.SlicesParsed(r.slices)
    ensures Refs.RecipeMounts(p.slices)
  {
    hide PlanOf;
    forall s, m | s in p.slices && m in s.mounts ensures RecipeMount(m) {
      var i :| 0 <= i < |p.slices| && p.slices[i] == s;
      PlanSlice(r, p, i);
      assert r.slices[i] in r.slices;
    }
  }

  /** Once Build has accepted the needs of a parsed recipe, validation cannot reject them. */
  lemma BuiltNeedsResolve(source: string, p: Plan.AppPlan)
    requires var r := RecipeOf(source); Buildable(r) && PlanOf(r, p) && forall s :: s in r.slices ==> s.name != ""
    ensures Validate.NeedsResolve(p.slices)
  {
    hide PlanOf, Text.Lower, Converted, Lexer.Lex, R.Recipe;
    var r := RecipeOf(source);
    R.AllParsed(Lexer.Lex(source).tokens, R.EMPTY_RECIPE);
    forall s, n | s in p.slices && n in s.needs ensures n in Validate.NamesOf(p.slices) {
      var i :| 0 <= i < |p.slices| && p.slices[i] == s;
      PlanSlice(r, p, i);
      var slices := ResolvedSlices(r);
      assert slices[i] in slices && n in slices[i].needs;
      assert n in NamesOf(slices);
      var j :| 0 <= j < |slices| && slices[j].name == n;
      PlanSlice(r, p, j);
      assert r.slices[j] in r.slices && p.slices[j] in p.slices;
    }
  }

  /** What wiring adds is never what validation rejects in an environment. */
  lemma BuiltKeysValid(r: Recipe, p: Plan.AppPlan, i: nat)
    requires PlanOf(r, p) && i < |p.slices| && forall s :: s in p.slices ==> Validate.ValidSliceName(s.name)
    ensures |p.slices| == |r.slices|
    ensures (forall k :: k in p.slices[i].env ==> Validate.ValidEnvKey(k)) <==>
            (forall k :: k in r.slices[i].env ==> Validate.ValidEnvKey(k))
  {
    hide Text.Lower, WireEnv, InferKind, Validate.ValidEnvKey, Validate.ValidSliceName;
    var slices := ResolvedSlices(r);
    var plain: seq<Plan.Slice> :| |plain| == |slices| && forall i :: 0 <= i < |slices| ==>
      Converted(slices[i]) == Some(plain[i]) && p.slices[i] == Wired(plain[i], plain, slices, r.name);
    assert Converted(slices[i]) == Some(plain[i]);
    forall t | t in plain ensures Validate.ValidSliceName(t.name) {
      var j :| 0 <= j < |plain| && plain[j] == t;
      assert p.slices[j] in p.slices;
    }
    WiredKeysValid(plain[i], plain, slices, r.name);
  }

  /** For every recipe text whose plan is accepted, a reference in the compiled objects names an object that
      comes earlier, unless it is one to a Secret, to the service of a stateful set, or from an autoscaler of
      a job, and then none does. */
  lemma TextReferencesExactly(source: string, p: Plan.AppPlan, i: nat, ref: Refs.Ref)
    requires PlanOf(RecipeOf(source), p) && Validate.Accepted(p)
    requires i < |Sort(Rank, AllObjects(p.slices))| && ref in Refs.Refs(Sort(Rank, AllObjects(p.slices))[i])
    ensures Refs.ProvidedBefore(Sort(Rank, AllObjects(p.slices)), i, ref) <==>
              !Refs.Dangling(p.slices, Sort(Rank, AllObjects(p.slices))[i], ref)
  {
    hide PlanOf, Validate.Accepted, Sort, AllObjects, Refs.Refs, Refs.Dangling, Refs.ProvidedBefore, R.Recipe,
      Refs.RecipeMounts, R.SlicesParsed, Lexer.Lex;
    assert R.SlicesParsed(R.EMPTY_RECIPE.slices) by { NothingParsed(); }
    R.AllParsed(Lexer.Lex(source).tokens, R.EMPTY_RECIPE);
    PlanMounts(RecipeOf(source), p);
    Refs.ReferencesExactly(p, i, ref);
  }

  lemma NothingParsed()
    ensures R.SlicesParsed([])
  {
  }

  /** Lexer and parser have nothing to complain about. */
  predicate Clean(source: string) {
    Lexer.Lex(source).errs == [] && R.Recipe(Lexer.Lex(source).tokens, R.EMPTY_RECIPE).errs == []
  }

  /** A document of known lines is clean, and its recipe is what it says. */
  lemma WrittenIsClean(d: D.Document)
    requires D.DocumentOk(d)
    ensures var source := W.Unlines(D.DocumentLines(d));
            && Clean(source)
            && RecipeOf(source) == Recipe(d.app, d.namespace, D.AliasMap(d.aliases), D.Urls(d.crds),
                                          D.SlicesFrom(d.parts, D.PartsFirst(d)))
  {
    hide D.DocumentOk, D.DocumentLines, W.Unlines, Lexer.Lex, R.Recipe;
    D.DocumentRead(d);
  }

  /** A recipe has one plan. */
  lemma PlanUnique(r: Recipe, p: Plan.AppPlan, q: Plan.AppPlan)
    requires PlanOf(r, p) && PlanOf(r, q)
    ensures p == q
  {
    hide Wired, Converted;
    var slices := ResolvedSlices(r);
    var a: seq<Plan.Slice> :| |a| == |slices| && forall i :: 0 <= i < |slices| ==>
      Converted(slices[i]) == Some(a[i]) && p.slices[i] == Wired(a[i], a, slices, r.name);
    var b: seq<Plan.Slice> :| |b| == |slices| && forall i :: 0 <= i < |slices| ==>
      Converted(slices[i]) == Some(b[i]) && q.slices[i] == Wired(b[i], b, slices, r.name);
    forall i | 0 <= i < |slices| ensures a[i] == b[i] {
      assert Some(a[i]) == Some(b[i]);
    }
    assert a == b;
    assert p.slices == q.slices;
  }

  /** The whole way: text in, objects out, unless something is wrong with the text, the recipe or the plan,
      of which there is one. */
  method Compile(source: string) returns (objects: Option<seq<Object>>)
    ensures objects.Some? ==> Clean(source) && Buildable(RecipeOf(source))
    ensures objects.Some? ==>
              exists p: Plan.AppPlan :: PlanOf(RecipeOf(source), p) && Validate.Accepted(p) &&
                objects.value == Sort(Rank, AllObjects(p.slices))
    ensures objects.None? ==>
              || !Clean(source) || !Buildable(RecipeOf(source))
              || exists p: Plan.AppPlan :: PlanOf(RecipeOf(source), p) && !Validate.Accepted(p)
  {
    hide PlanOf, Validate.Accepted, Sort, AllObjects;
    var recipe, lexErrs, errs := Parser.Parse(source);
    if lexErrs != [] || errs != [] { return None; }
    var plan := Build.Build(recipe);
    if plan.None? { return None; }
    var planErrs := Validate.Validate(plan.value);
    if planErrs != [] { return None; }
    var objs := CompileObjects(plan.value);
    return Some(objs);
  }
}
