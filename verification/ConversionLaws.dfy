/** What becomes of a Compose service, said of its image reference and its port texts alone, up to the image
    that its slice has in a plan (internal/importer/compose.go:80-85, 104-112, 243-349, 392-475,
      internal/plan/build.go:60-106). */
module ConversionLaws {
  import opened Ast
  import opened Text
  import opened Importer
  import B = Build
  import T = ImportRoundTrip

  // ---- Images ----

  /** An image reference: registry and path, the last segment of what stands before the first colon, and
      what comes behind that. */
  ghost predicate ImageParts(image: string, dir: string, base: string, rest: string) {
    && image == dir + base + rest
    && (dir == "" || dir[|dir| - 1] == '/') && ':' !in dir
    && '/' !in base && ':' !in base
    && (rest == "" || rest[0] == ':')
  }

  /** Every reference is one in exactly one way. */
  lemma PartsExist(image: string)
    ensures exists dir, base, rest :: ImageParts(image, dir, base, rest)
  {
    var i := IndexOf(image, ':');
    var j := SlashBefore(image[..i]);
    assert ImageParts(image, image[..j], image[j..i], image[i..]);
  }

  /** Where the last segment begins. */
  function SlashBefore(s: string): (j: nat)
    ensures j <= |s| && (j > 0 ==> s[j - 1] == '/') && '/' !in s[j..]
  {
    if s == "" then 0
    else if s[|s| - 1] == '/' then |s|
    else
      var j := SlashBefore(s[..|s| - 1]);
      assert s[j..] == s[..|s| - 1][j..] + [s[|s| - 1]];
      j
  }

  lemma {:induction false} LastSegmentIs(dir: string, base: string)
    requires (dir == "" || dir[|dir| - 1] == '/') && '/' !in base
    ensures LastSegment(dir + base) == base
    decreases |dir|
  {
    var s := dir + base;
    var i := IndexOf(s, '/');
    if dir == "" {
      assert s == base;
    } else {
      assert s[|dir| - 1] == '/';
      assert i < |dir|;
      assert s[i + 1..] == dir[i + 1..] + base;
      LastSegmentIs(dir[i + 1..], base);
    }
  }

  lemma ColonAt(image: string, dir: string, base: string, rest: string)
    requires ImageParts(image, dir, base, rest)
    ensures IndexOf(image, ':') == |dir + base| && image[..|dir + base|] == dir + base
    ensures rest != "" ==> image[|dir + base| + 1..] == rest[1..]
    ensures |dir + base| < |image| <==> rest != ""
  {
    var n := |dir + base|;
    forall k | 0 <= k < n ensures image[k] != ':' {
      if k < |dir| { assert image[k] == dir[k]; } else { assert image[k] == base[k - |dir|]; }
    }
    if rest != "" { assert image[n] == rest[0]; }
  }

  ghost predicate EngineImage(base: string) { base in ["postgres", "mysql", "mariadb", "redis"] }

  lemma EngineNamed(image: string, dir: string, base: string, rest: string)
    requires ImageParts(image, dir, base, rest)
    ensures EngineOf(image) ==
              if !EngineImage(base) then None
              else
                var e := if base == "mariadb" then "mysql" else base;
                Some(Engine(e, EngineVersion(e, if rest == "" then "latest" else rest[1..])))
  {
    hide IndexOf, LastSegment, EngineVersion;
    LastSegmentIs(dir, base);
    ColonAt(image, dir, base, rest);
  }

  /** A database or cache is what the last segment of its image says, with MariaDB as MySQL, whatever
      registry and tag; in a plan it has an image of that name. Any other image stays as it is. A registry
      with a port is not seen through: what stands before the first colon is then no more than its host. */
  lemma ImageKept(name: string, svc: Service, dir: string, base: string, rest: string)
    requires svc.image != "" && ImageParts(svc.image, dir, base, rest)
    ensures var s := Converted(name, svc);
            && s.engine == (if !EngineImage(base) then "" else if base == "mariadb" then "mysql" else base)
            && s.image == (if EngineImage(base) then "" else svc.image)
            && s.storage == (if EngineImage(base) && base != "redis" then "10Gi" else "")
            && (if !EngineImage(base) then B.PlanImage(s) == svc.image && s.version == ""
                else if base == "mariadb" then "mysql:" <= B.PlanImage(s)
                else base + ":" <= B.PlanImage(s))
  {
    hide EngineOf, ImageParts, EngineVersion, Capitalize, FirstPort, AnyPublic, EnvMap;
    EngineNamed(svc.image, dir, base, rest);
  }

  const VARIANTS := ["-alpine", "-bookworm", "-bullseye", "-slim", "-jammy"]

  /** A version without the name of a distribution behind it. */
  ghost predicate PlainVersion(v: string) {
    v != "" && v != "latest" && forall i :: 0 <= i < |VARIANTS| ==> !HasSuffix(v, VARIANTS[i])
  }

  lemma SuffixOf(v: string, x: string)
    ensures TrimSuffix(v + x, x) == v
  {
    assert (v + x)[|v|..] == x;
  }

  /** Of endings that differ in their last two letters, a text has at most one. */
  lemma OtherSuffix(v: string, x: string, y: string)
    requires |x| >= 2 && |y| >= 2 && (x[|x| - 1] != y[|y| - 1] || x[|x| - 2] != y[|y| - 2])
    ensures TrimSuffix(v + x, y) == v + x
  {
    var s := v + x;
    assert s[|s| - 1] == x[|x| - 1] && s[|s| - 2] == x[|x| - 2];
    SuffixEnds(s, y);
  }

  lemma SuffixEnds(s: string, y: string)
    requires |y| >= 2
    ensures HasSuffix(s, y) ==> |s| >= 2 && s[|s| - 1] == y[|y| - 1] && s[|s| - 2] == y[|y| - 2]
  {
    if HasSuffix(s, y) { assert s[|s| - |y|..][|y| - 1] == s[|s| - 1] && s[|s| - |y|..][|y| - 2] == s[|s| - 2]; }
  }

  lemma OneVariant(v: string, i: nat)
    requires i < |VARIANTS|
    ensures forall j :: 0 <= j < |VARIANTS| && j != i ==> TrimSuffix(v + VARIANTS[i], VARIANTS[j]) == v + VARIANTS[i]
  {
    hide HasSuffix, TrimSuffix;
    forall j | 0 <= j < |VARIANTS| && j != i ensures TrimSuffix(v + VARIANTS[i], VARIANTS[j]) == v + VARIANTS[i] {
      OtherSuffix(v, VARIANTS[i], VARIANTS[j]);
    }
  }

  lemma TagTrimmed(v: string, variant: string)
    requires PlainVersion(v) && (variant == "" || variant in VARIANTS)
    ensures PlainTag(v + variant) == v
  {
    hide HasSuffix, TrimSuffix, PlainVersion;
    VersionKept(v);
    if variant == "" {
      assert v + variant == v;
      assert TrimSuffix(v, VARIANTS[0]) == v && TrimSuffix(v, VARIANTS[1]) == v && TrimSuffix(v, VARIANTS[2]) == v;
      assert TrimSuffix(v, VARIANTS[3]) == v && TrimSuffix(v, VARIANTS[4]) == v;
    } else {
      var i :| 0 <= i < |VARIANTS| && VARIANTS[i] == variant;
      OneVariant(v, i);
      SuffixOf(v, variant);
      TagSteps(v + variant, v, i);
    }
  }

  lemma TagSteps(s: string, v: string, i: nat)
    requires Kept(v) && i < |VARIANTS| && TrimSuffix(s, VARIANTS[i]) == v
    requires forall j :: 0 <= j < |VARIANTS| && j != i ==> TrimSuffix(s, VARIANTS[j]) == s
    ensures PlainTag(s) == v
  {
    hide HasSuffix, TrimSuffix;
    assert forall j :: 0 <= j < |VARIANTS| ==> TrimSuffix(s, VARIANTS[j]) == if i == j then v else s;
    assert VARIANTS[0] == "-alpine" && VARIANTS[1] == "-bookworm" && VARIANTS[2] == "-bullseye";
    assert VARIANTS[3] == "-slim" && VARIANTS[4] == "-jammy";
    assert TrimSuffix(v, VARIANTS[0]) == v && TrimSuffix(v, VARIANTS[1]) == v && TrimSuffix(v, VARIANTS[2]) == v;
    assert TrimSuffix(v, VARIANTS[3]) == v && TrimSuffix(v, VARIANTS[4]) == v;
  }

  /** None of the endings is there to be taken off. */
  ghost predicate Kept(v: string) { forall i :: 0 <= i < |VARIANTS| ==> TrimSuffix(v, VARIANTS[i]) == v }

  lemma VersionKept(v: string)
    requires PlainVersion(v)
    ensures Kept(v)
  {
    hide HasSuffix;
  }

  /** An official image of that version. */
  function Official(base: string, version: string): string {
    if base == "postgres" || base == "redis" then base + ":" + version + "-alpine" else "mysql:" + version
  }

  lemma NotEmpty(image: string, dir: string, base: string, rest: string)
    requires ImageParts(image, dir, base, rest) && EngineImage(base)
    ensures image != ""
  {
  }

  lemma PlannedAs(s: Slice, base: string)
    requires EngineImage(base) && s.engine == (if base == "mariadb" then "mysql" else base)
    requires s.image == "" && s.version != ""
    ensures B.PlanImage(s) == Official(base, s.version)
  {
  }

  lemma PlannedImage(name: string, svc: Service, dir: string, base: string, rest: string)
    requires ImageParts(svc.image, dir, base, rest) && EngineImage(base)
    ensures var s := Converted(name, svc);
            s.version == EngineVersion(s.engine, if rest == "" then "latest" else rest[1..])
            && s.engine == (if base == "mariadb" then "mysql" else base)
            && B.PlanImage(s) == Official(base, s.version)
  {
    hide EngineOf, EngineVersion, Capitalize, FirstPort, AnyPublic, EnvMap, ImageParts, B.PlanImage;
    EngineNamed(svc.image, dir, base, rest);
    assert svc.image != "" by { NotEmpty(svc.image, dir, base, rest); }
    PlannedAs(Converted(name, svc), base);
  }

  /** The image in a plan is that of the engine with the version of the tag, without the name of a
      distribution; PostgreSQL and Redis are on Alpine always. */
  lemma TagKept(name: string, svc: Service, dir: string, base: string, v: string, variant: string)
    requires ImageParts(svc.image, dir, base, ":" + (v + variant)) && EngineImage(base)
    requires PlainVersion(v) && (variant == "" || variant in VARIANTS)
    ensures Converted(name, svc).version == v && B.PlanImage(Converted(name, svc)) == Official(base, v)
  {
    hide ImageParts, EngineImage, Converted, B.PlanImage, PlainTag;
    var rest := ":" + (v + variant);
    PlannedImage(name, svc, dir, base, rest);
    assert rest[1..] == v + variant;
    TagTrimmed(v, variant);
  }

  /** Without a version in the tag, it is 16, 7 or 8. */
  lemma NoVersion(name: string, svc: Service, dir: string, base: string, rest: string)
    requires ImageParts(svc.image, dir, base, rest) && EngineImage(base)
    requires rest == "" || rest == ":" || rest == ":latest"
    ensures B.PlanImage(Converted(name, svc)) ==
              Official(base, if base == "postgres" then "16" else if base == "redis" then "7" else "8")
  {
    hide ImageParts, Converted, B.PlanImage, PlainTag;
    PlannedImage(name, svc, dir, base, rest);
    PlainTags();
    assert ":latest"[1..] == "latest" && ":"[1..] == "";
  }

  lemma PlainTags()
    ensures PlainTag("latest") == "latest" && PlainTag("") == ""
  {
  }

  // ---- Ports ----

  /** Text that trimming does not shorten in front. */
  ghost predicate Unindented(s: string) { s != "" && !IsSpace(s[0]) }

  lemma {:induction false} TrimRightTail(s: string, tail: string)
    requires s == "" || !IsSpace(s[|s| - 1])
    ensures s <= TrimSpaceRight(s + tail)
    ensures TrimSpaceRight(s + tail) <= s + tail
    decreases |tail|
  {
    if tail == "" {
      assert s + tail == s;
    } else {
      var n := |tail| - 1;
      assert (s + tail)[..|s + tail| - 1] == s + tail[..n];
      if IsSpace(tail[n]) { TrimRightTail(s, tail[..n]); }
    }
  }

  lemma IndexBehind(s: string, tail: string, c: char)
    requires c !in s
    ensures IndexOf(s + tail, c) >= |s|
  {
    var i := IndexOf(s + tail, c);
    assert i < |s + tail| ==> (s + tail)[i] == c;
    assert forall k :: 0 <= k < |s| ==> (s + tail)[k] == s[k];
  }

  /** What is left of a specification when its end is trimmed and its protocol is cut off. */
  lemma SpecText(s: string, tail: string)
    requires Unindented(s) && !IsSpace(s[|s| - 1]) && '/' !in s
    ensures s <= PortSpecText(s + tail) && PortSpecText(s + tail) <= s + tail
  {
    hide IndexOf;
    TrimRightTail(s, tail);
    assert (s + tail)[0] == s[0];
    var t := TrimSpace(s + tail);
    assert t == s + t[|s|..];
    IndexBehind(s, t[|s|..], '/');
  }

  lemma DigitsOf(n: nat, tail: string)
    requires n <= MAX_INT64 && (tail == "" || !IsDigit(tail[0]))
    ensures PortValue(LeadingDigits(Decimal(n) + tail)) == n
  {
    hide Itoa, PortValue, DigitsValue, LeadingDigits;
    var d := Itoa(n);
    var s := d + tail;
    assert s[..|d|] == d;
    LeadingDigitsAre(s, |d|);
    ItoaValue(n);
    T.PortValueIs(d);
  }

  /** Of a published port, whatever stands in front of the first colon is dropped, and the number behind it
      is the port, up to the first character that is no digit. Where an address stands in front, as in
      127.0.0.1:8080:80, that is the port of the host. */
  lemma PublishedPort(host: string, n: nat, tail: string)
    requires ':' !in host && '/' !in host && (host == "" || !IsSpace(host[0]))
    requires n <= MAX_INT64 && (tail == "" || !IsDigit(tail[0]))
    ensures PortNumber(host + ":" + Decimal(n) + tail) == n && IsPublic(host + ":" + Decimal(n) + tail)
  {
    hide IndexOf, Itoa, PortValue, LeadingDigits, PortSpecText, Decimal;
    hide PortNumber, ContainerPort, IsPublic;
    var rest := PublishedText(host, n, tail);
    var spec := host + ":" + Decimal(n) + tail;
    assert PortSpecText(spec) == host + ":" + (Decimal(n) + rest);
    Published(spec, host, Decimal(n) + rest);
    DigitsOf(n, rest);
    PortNumberOf(spec);
  }

  lemma PortNumberOf(spec: string)
    ensures PortNumber(spec) == PortValue(LeadingDigits(ContainerPort(spec)))
  {
  }

  lemma Published(spec: string, host: string, port: string)
    requires PortSpecText(spec) == host + ":" + port && ':' !in host
    ensures IsPublic(spec) && ContainerPort(spec) == port
  {
    hide IndexOf, PortSpecText;
    var t := PortSpecText(spec);
    assert t == host + (":" + port);
    IndexBehind(host, ":" + port, ':');
    assert t[|host|] == ':';
    assert t[|host| + 1..] == port;
  }

  /** Trimming and cutting leave something of the tail. */
  lemma PublishedText(host: string, n: nat, tail: string) returns (rest: string)
    requires ':' !in host && '/' !in host && (host == "" || !IsSpace(host[0]))
    ensures PortSpecText(host + ":" + Decimal(n) + tail) == host + ":" + Decimal(n) + rest
    ensures rest == "" || (tail != "" && rest[0] == tail[0])
  {
    hide IndexOf, Itoa, PortValue, LeadingDigits, PortSpecText, Decimal;
    var s := host + ":" + Decimal(n);
    DigitsOnly(n);
    assert s[|s| - 1] == Decimal(n)[|Decimal(n)| - 1];
    assert s[0] == if host == "" then ':' else host[0];
    SpecText(s, tail);
    PrefixRest(s, tail, PortSpecText(s + tail));
    rest := PortSpecText(s + tail)[|s|..];
  }

  lemma PrefixRest(s: string, tail: string, t: string)
    requires s <= t <= s + tail
    ensures t == s + t[|s|..] && (t[|s|..] == "" || (tail != "" && t[|s|..][0] == tail[0]))
  {
    if |t| > |s| { assert t[|s|] == (s + tail)[|s|] == tail[0]; }
  }

  lemma DigitsOnly(n: nat)
    ensures Decimal(n) != "" && forall k :: 0 <= k < |Decimal(n)| ==> IsDigit(Decimal(n)[k])
    ensures ':' !in Decimal(n) && '/' !in Decimal(n) && !IsSpace(Decimal(n)[|Decimal(n)| - 1])
    ensures !IsSpace(Decimal(n)[0])
  {
    hide Itoa;
  }

  /** A port that is not published stays private. */
  lemma PrivatePort(n: nat, tail: string)
    requires n <= MAX_INT64 && ':' !in tail && (tail == "" || !IsDigit(tail[0]))
    ensures PortNumber(Decimal(n) + tail) == n && !IsPublic(Decimal(n) + tail)
  {
    hide IndexOf, Itoa, PortValue, LeadingDigits, PortSpecText;
    var s := Decimal(n);
    DigitsOnly(n);
    SpecText(s, tail);
    var t := PortSpecText(s + tail);
    PrefixRest(s, tail, t);
    forall k | 0 <= k < |t| ensures t[k] != ':' {
      assert t[k] == (s + tail)[k];
      if k < |s| { assert (s + tail)[k] == s[k]; } else { assert (s + tail)[k] == tail[k - |s|]; }
    }
    DigitsOf(n, t[|s|..]);
  }

  // ---- The rest of a service ----

  /** The value of a key is the last that is given for it. */
  ghost predicate LastOf(env: seq<(string, string)>, i: int, key: string) {
    0 <= i < |env| && env[i].0 == key && forall j :: i < j < |env| ==> env[j].0 != key
  }

  lemma {:induction false} EnvLast(env: seq<(string, string)>, key: string, v: string)
    ensures key in EnvMap(env) && EnvMap(env)[key] == v <==> exists i :: LastOf(env, i, key) && env[i].1 == v
  {
    if env != [] {
      var n := |env| - 1;
      var front := env[..n];
      EnvLast(front, key, v);
      if env[n].0 == key {
        assert LastOf(env, n, key);
      } else {
        if exists i :: LastOf(front, i, key) && front[i].1 == v {
          var i :| LastOf(front, i, key) && front[i].1 == v;
          assert LastOf(env, i, key);
        }
        if exists i :: LastOf(env, i, key) && env[i].1 == v {
          var i :| LastOf(env, i, key) && env[i].1 == v;
          assert LastOf(front, i, key);
        }
      }
    }
  }

  /** The first usable port is the port of the slice. */
  ghost predicate FirstOf(ports: seq<string>, i: int) {
    0 <= i < |ports| && PortNumber(ports[i]) > 0 && forall j :: 0 <= j < i ==> PortNumber(ports[j]) <= 0
  }

  /** A port that is usable and published. */
  ghost predicate PublicAt(ports: seq<string>, i: int) {
    0 <= i < |ports| && PortNumber(ports[i]) > 0 && IsPublic(ports[i])
  }

  lemma PublicSomewhere(ports: seq<string>)
    ensures AnyPublic(ports) <==> exists j :: PublicAt(ports, j)
  {
    hide PortNumber, IsPublic;
    if AnyPublic(ports) {
      var j :| 0 <= j < |ports| && PortNumber(ports[j]) > 0 && IsPublic(ports[j]);
      assert PublicAt(ports, j);
    }
    if j :| PublicAt(ports, j) {
      assert PortNumber(ports[j]) > 0 && IsPublic(ports[j]);
    }
  }

  lemma {:induction false} FirstPortIs(ports: seq<string>, i: int)
    requires FirstOf(ports, i)
    ensures FirstPort(ports) == PortNumber(ports[i])
  {
    hide PortNumber;
    if i > 0 {
      assert forall j :: 0 <= j < |ports| - 1 ==> ports[1..][j] == ports[j + 1];
      FirstPortIs(ports[1..], i - 1);
    }
  }

  /** Everything that a service with an image says, by name. */
  lemma ServiceKept(name: string, svc: Service, key: string, v: string, i: int)
    requires svc.image != ""
    ensures var s := Converted(name, svc);
            && s.needs == svc.needs
            && s.restartPolicy == (if svc.restart == "no" then "" else svc.restart)
            && s.replicas == (match svc.replicas case Some(n) => if n > 1 then n else 0 case None => 0)
            && (key in s.env && s.env[key] == v <==> exists j :: LastOf(svc.env, j, key) && svc.env[j].1 == v)
            && (FirstOf(svc.ports, i) ==> s.port == PortNumber(svc.ports[i]))
            && (s.public <==> exists j :: PublicAt(svc.ports, j))
  {
    hide EngineOf, EnvMap, FirstPort, PortNumber, IsPublic, Capitalize, LastOf, AnyPublic, PublicAt;
    PublicSomewhere(svc.ports);
    EnvLast(svc.env, key, v);
    if FirstOf(svc.ports, i) { FirstPortIs(svc.ports, i); }
  }

  /** A service without an image becomes an empty section. */
  lemma NoImageKept(name: string, svc: Service)
    requires svc.image == ""
    ensures var s := Converted(name, svc); s == EmptySlice(s.name, 0)
  {
  }

  const RESERVED := ["app", "namespace", "images"]

  /** A slice is named like its service, in any case of letters; like a reserved word only with a suffix. */
  lemma NameKept(name: string, svc: Service)
    ensures Lower(Converted(name, svc).name) == Lower(name) + if Lower(name) in RESERVED then "-svc" else ""
  {
    hide EngineOf, EnvMap, FirstPort, AnyPublic, Lower;
    var n := if Lower(name) in RESERVED then name + "-svc" else name;
    LowerConcat(name, "-svc");
    assert Lower("-svc") == "-svc" by { SuffixLower(); }
    if name != "" { Capital(n); }
  }

  lemma SuffixLower()
    ensures Lower("-svc") == "-svc"
  {
  }

  lemma Capital(n: string)
    requires n != ""
    ensures Lower([UpperChar(n[0])] + n[1..]) == Lower(n)
  {
    forall k | 0 <= k < |n| ensures LowerChar(([UpperChar(n[0])] + n[1..])[k]) == LowerChar(n[k]) {
    }
  }

  lemma LowerConcat(a: string, b: string)
    ensures Lower(a + b) == Lower(a) + Lower(b)
  {
  }
}
