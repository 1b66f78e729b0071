/** How recipes are written: words, quoted texts and commas, without regard to how they are read
    (docs/specs/full-workload-taxonomy.md, internal/recipe/testdata/full-taxonomy.mozza). */
module Phrases {
  import opened Ast
  import opened Text

  datatype Piece = Word(w: string) | Quote(v: string) | Comma

  function Val(p: Piece): string { match p case Word(w) => w case Quote(v) => v case Comma => "," }

  function PieceText(p: Piece): string {
    match p case Word(w) => " " + w case Quote(v) => " \"" + v + "\"" case Comma => ","
  }

  function PiecesText(ps: seq<Piece>): string {
    if ps == [] then "" else PieceText(ps[0]) + PiecesText(ps[1..])
  }

  /** A line of a section: words are one blank apart, and commas stand right behind what they follow. */
  function LineText(ps: seq<Piece>): string { " " + PiecesText(ps) }

  function Num(n: nat): Piece { Word(Itoa(n)) }

  function Percent(n: nat): Piece { Word(Itoa(n) + "%") }

  function Label(key: string, val: string): Piece { Quote(key + "=" + val) }

  function Vals(ps: seq<Piece>): seq<string> {
    seq(|ps|, i requires 0 <= i < |ps| => Val(ps[i]))
  }

  /** One and another and a third. */
  function And(names: seq<Piece>): seq<Piece> {
    if names == [] then [] else [names[0]] + if |names| == 1 then [] else [Word("and")] + And(names[1..])
  }

  // ---- Amounts of time ----

  datatype Time = Seconds(n: nat) | Minutes(n: nat)

  function TimeText(t: Time): string { match t case Seconds(n) => Itoa(n) + "s" case Minutes(n) => Itoa(n) + "m" }

  function InSeconds(t: Time): nat { match t case Seconds(n) => n case Minutes(n) => 60 * n }

  /** The timing of a probe, in any order. */
  datatype Part = Every(t: Time) | Timeout(t: Time) | Wait(t: Time)

  function PartPieces(p: Part, last: bool): seq<Piece> {
    match p
    case Every(t) => [Word("every"), Word(TimeText(t))] + if last then [] else [Comma]
    case Timeout(t) => [Word("timeout"), Word(TimeText(t))] + if last then [] else [Comma]
    case Wait(t) => [Word("wait"), Word(TimeText(t)), Word("before"), Word("starting")]
  }

  function PartsPieces(parts: seq<Part>): seq<Piece> {
    if parts == [] then [] else PartPieces(parts[0], |parts| == 1) + PartsPieces(parts[1..])
  }

  datatype Times = Times(every: nat, timeout: nat, wait: nat)

  /** Of two of a sort the later counts. */
  function TimesOf(parts: seq<Part>): Times {
    if parts == [] then Times(0, 0, 0)
    else
      var times := TimesOf(parts[..|parts| - 1]);
      match parts[|parts| - 1]
      case Every(t) => times.(every := InSeconds(t))
      case Timeout(t) => times.(timeout := InSeconds(t))
      case Wait(t) => times.(wait := InSeconds(t))
  }

  function PathProbe(kind: string, path: string, parts: seq<Part>): ProbeSpec {
    ProbeSpec(kind, path, "", 0, TimesOf(parts).every, TimesOf(parts).timeout, TimesOf(parts).wait)
  }

  // ---- Running once ----

  datatype Modifier = Parallel(n: nat) | Retries(n: nat)

  function ModifierPieces(m: Modifier): seq<Piece> {
    match m
    case Parallel(n) => [Word("with"), Num(n), Word("parallel")]
    case Retries(n) => [Word("retry"), Word("up"), Word("to"), Num(n), Word("times")]
  }

  function ModifiersPieces(mods: seq<Modifier>): seq<Piece> {
    if mods == [] then []
    else ModifierPieces(mods[0]) + (if |mods| == 1 then [] else [Comma]) + ModifiersPieces(mods[1..])
  }

  function Modified(s: Slice, mods: seq<Modifier>): Slice {
    if mods == [] then s
    else match mods[|mods| - 1]
      case Parallel(n) => Modified(s, mods[..|mods| - 1]).(parallelism := n)
      case Retries(n) => Modified(s, mods[..|mods| - 1]).(retries := n)
  }

  // ---- Times of day ----

  function HourText(hour: nat, pm: bool): string { Itoa(hour) + if pm then "pm" else "am" }

  /** Twelve at night is zero, twelve at noon is twelve. */
  function Hour24(hour: nat, pm: bool): nat { hour % 12 + if pm then 12 else 0 }

  // ---- Permissions ----

  datatype Verb = Read | Write | Delete | Manage

  function VerbText(v: Verb): string {
    match v case Read => "read" case Write => "write" case Delete => "delete" case Manage => "manage"
  }

  /** What a verb permits in Kubernetes. */
  function VerbsOf(v: Verb): seq<string> {
    match v
    case Read => ["get", "list", "watch"]
    case Write => ["create", "update", "patch"]
    case Delete => ["delete"]
    case Manage => ["get", "list", "watch", "create", "update", "patch", "delete"]
  }

  function VerbPieces(verbs: seq<Verb>): seq<Piece> {
    And(seq(|verbs|, i requires 0 <= i < |verbs| => Word(VerbText(verbs[i]))))
  }

  function AllVerbs(verbs: seq<Verb>): seq<string> {
    if verbs == [] then [] else AllVerbs(verbs[..|verbs| - 1]) + VerbsOf(verbs[|verbs| - 1])
  }

  /** Each once, at its first mention. */
  function FirstMentions(xs: seq<string>): seq<string> {
    if xs == [] then []
    else
      var init, last := xs[..|xs| - 1], xs[|xs| - 1];
      FirstMentions(init) + if exists i :: 0 <= i < |init| && init[i] == last then [] else [last]
  }

  // ---- Databases ----

  datatype DatabaseOption = Size(size: Piece) | DailyBackups

  function OptionPieces(options: seq<DatabaseOption>): seq<Piece> {
    if options == [] then []
    else
      [Comma] + (match options[0] case Size(size) => [size] case DailyBackups => [Word("daily"), Word("backups")]) +
      OptionPieces(options[1..])
  }

  function Stored(s: Slice, options: seq<DatabaseOption>): Slice {
    if options == [] then s
    else match options[|options| - 1]
      case Size(size) => Stored(s, options[..|options| - 1]).(storage := Val(size))
      case DailyBackups => Stored(s, options[..|options| - 1]).(backups := "daily")
  }

  // ---- Parts of a slice that may not be there yet ----

  function Or<T>(o: Option<T>, d: T): T { if o.Some? then o.value else d }

  function LifecycleOf(s: Slice): LifecycleSpec { Or(s.lifecycle, LifecycleSpec("", 0, "")) }

  function SecurityOf(s: Slice): SecuritySpec { Or(s.security, SecuritySpec(0, 0, false, [], [])) }

  function SchedulingOf(s: Slice): SchedulingSpec { Or(s.scheduling, SchedulingSpec([], [], "", false)) }

  function PolicyOf(s: Slice): NetworkPolicySpec { Or(s.networkPolicy, NetworkPolicySpec([], [])) }

  function BudgetOf(s: Slice): DisruptionBudgetSpec { Or(s.disruptionBudget, DisruptionBudgetSpec(0, 0)) }
}
