/** internal/render: lexical paths, and the two validations that must agree with resolution under the checkout root. */
module Paths {
  import opened Text
  import opened Outcomes

  datatype PathError = PathRequired | EscapesRoot | NotRelative | NotAFile | NotClean

  const UP: string := ".."

  /** A component that names something below the directory it is looked up in. */
  predicate Normal(part: string) {
    part != "" && part != "." && part != UP && '/' !in part
  }

  /** One step of filepath.Clean over the components read so far. */
  function Step(stack: seq<string>, part: string, rooted: bool): seq<string> {
    if part == "" || part == "." then stack
    else if part != UP then stack + [part]
    else if stack != [] && stack[|stack| - 1] != UP then stack[..|stack| - 1]
    else if rooted then stack
    else stack + [UP]
  }

  function Walk(stack: seq<string>, parts: seq<string>, rooted: bool): seq<string>
    decreases |parts|
  {
    if parts == [] then stack else Walk(Step(stack, parts[0], rooted), parts[1..], rooted)
  }

  predicate Rooted(path: string) {
    path != "" && path[0] == '/'
  }

  function Components(path: string): seq<string> {
    Walk([], Split(path, '/'), Rooted(path))
  }

  function Glue(parts: seq<string>): string {
    if parts == [] then ""
    else if |parts| == 1 then parts[0]
    else parts[0] + "/" + Glue(parts[1..])
  }

  function Render(rooted: bool, parts: seq<string>): string {
    if rooted then "/" + Glue(parts) else if parts == [] then "." else Glue(parts)
  }

  /** filepath.Clean with '/' as the separator. */
  function Clean(path: string): string {
    Render(Rooted(path), Components(path))
  }

  /** filepath.Join of two elements: an empty first element is dropped. */
  function Join(a: string, b: string): string {
    if a == "" then if b == "" then "" else Clean(b) else Clean(a + "/" + b)
  }

  function ResolveWithinRoot(root: string, rel: string): Result<string, PathError> {
    if rel == "" then Err(PathRequired)
    else
      var joined := Join(root, rel);
      var cleanRoot := Clean(root);
      var cleanJoined := Clean(joined);
      if cleanJoined != cleanRoot && !HasPrefix(cleanJoined, cleanRoot + "/") then Err(EscapesRoot)
      else Ok(cleanJoined)
  }

  function ValidateRelPath(path: string): Result<(), PathError> {
    if path == "" then Err(PathRequired)
    else if HasPrefix(Clean(path), UP) || Rooted(path) then Err(EscapesRoot)
    else Ok(())
  }

  function ValidateValuesFilePath(path: string): Result<(), PathError> {
    if path == "" then Err(PathRequired)
    else if Rooted(path) then Err(NotRelative)
    else
      var clean := Clean(path);
      if clean == "." then Err(NotAFile)
      else if clean != path then Err(NotClean)
      else if clean == UP || HasPrefix(clean, UP + "/") then Err(EscapesRoot)
      else Ok(())
  }

  // Cleaned components

  /** What a walk leaves: names, preceded by ".." only if the path is not rooted. */
  predicate Canonical(parts: seq<string>, rooted: bool) {
    && (forall i :: 0 <= i < |parts| ==> Normal(parts[i]) || (parts[i] == UP && !rooted))
    && (forall i, j :: 0 <= i < j < |parts| && parts[j] == UP ==> parts[i] == UP)
  }

  predicate AllNormal(parts: seq<string>) {
    forall i :: 0 <= i < |parts| ==> Normal(parts[i])
  }

  predicate SlashFree(parts: seq<string>) {
    forall i :: 0 <= i < |parts| ==> '/' !in parts[i]
  }

  function Ups(parts: seq<string>): (k: nat)
    ensures k <= |parts|
    ensures forall i :: 0 <= i < k ==> parts[i] == UP
    ensures k < |parts| ==> parts[k] != UP
  {
    if parts == [] || parts[0] != UP then 0 else 1 + Ups(parts[1..])
  }

  function Climb(stack: seq<string>, k: nat, rooted: bool): seq<string>
    decreases k
  {
    if k == 0 then stack else Climb(Step(stack, UP, rooted), k - 1, rooted)
  }

  lemma {:induction false} WalkConcatenation(stack: seq<string>, a: seq<string>, b: seq<string>, rooted: bool)
    ensures Walk(stack, a + b, rooted) == Walk(Walk(stack, a, rooted), b, rooted)
    decreases |a|
  {
    if a == [] {
      assert a + b == b;
    } else {
      assert (a + b)[1..] == a[1..] + b;
      WalkConcatenation(Step(stack, a[0], rooted), a[1..], b, rooted);
    }
  }

  lemma {:induction false} WalkIsCanonical(stack: seq<string>, parts: seq<string>, rooted: bool)
    requires Canonical(stack, rooted) && SlashFree(parts)
    ensures Canonical(Walk(stack, parts, rooted), rooted)
    decreases |parts|
  {
    if parts != [] {
      WalkIsCanonical(Step(stack, parts[0], rooted), parts[1..], rooted);
    }
  }

  lemma {:induction false} WalkNames(stack: seq<string>, names: seq<string>, rooted: bool)
    requires AllNormal(names)
    ensures Walk(stack, names, rooted) == stack + names
    decreases |names|
  {
    if names == [] {
      assert stack + names == stack;
    } else {
      WalkNames(stack + [names[0]], names[1..], rooted);
      assert stack + [names[0]] + names[1..] == stack + names;
    }
  }

  /** Walking a cleaned relative path climbs by its ".." and then descends by its names. */
  lemma {:induction false} WalkClimbsThenDescends(stack: seq<string>, parts: seq<string>, rooted: bool)
    requires Canonical(parts, false)
    ensures Walk(stack, parts, rooted) == Climb(stack, Ups(parts), rooted) + parts[Ups(parts)..]
    ensures AllNormal(parts[Ups(parts)..])
    decreases |parts|
  {
    if Ups(parts) == 0 {
      assert forall i :: 0 < i < |parts| && parts[i] == UP ==> parts[0] == UP;
      WalkNames(stack, parts, rooted);
    } else {
      WalkClimbsThenDescends(Step(stack, UP, rooted), parts[1..], rooted);
      assert parts[1..][Ups(parts) - 1..] == parts[Ups(parts)..];
    }
  }

  lemma {:induction false} ClimbFromTheTop(k: nat)
    ensures |Climb([], k, false)| == k
    ensures forall i :: 0 <= i < k ==> Climb([], k, false)[i] == UP
  {
    ClimbOverUps([], k);
  }

  lemma {:induction false} ClimbOverUps(stack: seq<string>, k: nat)
    requires forall i :: 0 <= i < |stack| ==> stack[i] == UP
    ensures |Climb(stack, k, false)| == |stack| + k
    ensures forall i :: 0 <= i < |stack| + k ==> Climb(stack, k, false)[i] == UP
    decreases k
  {
    if k != 0 {
      ClimbOverUps(stack + [UP], k - 1);
    }
  }

  lemma WalkOfCanonical(parts: seq<string>, rooted: bool)
    requires Canonical(parts, rooted)
    ensures Walk([], parts, rooted) == parts
  {
    WalkClimbsThenDescends([], parts, rooted);
    if Ups(parts) != 0 {
      assert parts[0] == UP && !rooted;
      ClimbFromTheTop(Ups(parts));
    }
    assert Climb([], Ups(parts), rooted) == parts[..Ups(parts)];
  }

  lemma CleanedStep(stack: seq<string>, cleaned: seq<string>, last: string, rooted: bool)
    requires Canonical(cleaned, false)
    ensures Walk(stack, Step(cleaned, last, false), rooted) == Step(Walk(stack, cleaned, rooted), last, rooted)
  {
    if last == UP && cleaned != [] && cleaned[|cleaned| - 1] != UP {
      var kept, top := cleaned[..|cleaned| - 1], cleaned[|cleaned| - 1];
      assert cleaned == kept + [top] && Normal(top);
      WalkConcatenation(stack, kept, [top], rooted);
      assert Walk(stack, cleaned, rooted) == Walk(stack, kept, rooted) + [top];
    } else if last != "" && last != "." {
      WalkConcatenation(stack, cleaned, [last], rooted);
    }
  }

  /** Cleaning a relative path first does not change where it leads from any directory. */
  lemma {:induction false} WalkOfCleaned(stack: seq<string>, parts: seq<string>, rooted: bool)
    requires SlashFree(parts)
    ensures Walk(stack, Walk([], parts, false), rooted) == Walk(stack, parts, rooted)
    decreases |parts|
  {
    if parts != [] {
      var front, last := parts[..|parts| - 1], parts[|parts| - 1];
      assert parts == front + [last];
      WalkOfCleaned(stack, front, rooted);
      WalkConcatenation([], front, [last], false);
      WalkConcatenation(stack, front, [last], rooted);
      WalkIsCanonical([], front, false);
      hide Step, Canonical;
      CleanedStep(stack, Walk([], front, false), last, rooted);
    }
  }

  // Strings and components

  lemma {:induction false} GlueSplits(parts: seq<string>)
    requires parts != [] && SlashFree(parts)
    ensures Split(Glue(parts), '/') == parts
    decreases |parts|
  {
    if |parts| > 1 {
      GlueSplits(parts[1..]);
      SplitConcatenation(parts[0], '/', Glue(parts[1..]));
      assert Glue(parts) == parts[0] + ['/'] + Glue(parts[1..]);
      assert Split(parts[0], '/') == [parts[0]];
    }
  }

  lemma {:induction false} SplitGlues(s: string)
    ensures Glue(Split(s, '/')) == s
    decreases |s|
  {
    if '/' in s {
      SplitGlues(After(s, '/'));
      var head := Before(s, '/');
      CutAndGlue(s, '/');
    }
  }

  lemma ComponentsAreCanonical(path: string)
    ensures Canonical(Components(path), Rooted(path))
  {
    WalkIsCanonical([], Split(path, '/'), Rooted(path));
  }

  lemma RenderedReadsBack(rooted: bool, parts: seq<string>)
    requires Canonical(parts, rooted)
    ensures Rooted(Render(rooted, parts)) == rooted
    ensures Components(Render(rooted, parts)) == parts
  {
    WalkOfCanonical(parts, rooted);
    var s := Render(rooted, parts);
    if parts != [] {
      assert SlashFree(parts);
      GlueSplits(parts);
      assert Normal(parts[0]) || parts[0] == UP;
      assert Glue(parts) != "" && Glue(parts)[0] == parts[0][0];
    }
    if rooted {
      SplitConcatenation("", '/', Glue(parts));
      assert s == "" + ['/'] + Glue(parts);
      assert Split("", '/') == [""];
      WalkConcatenation([], [""], Split(Glue(parts), '/'), true);
      assert Walk([], [""], true) == [];
      if parts == [] {
        assert Split(Glue(parts), '/') == [""];
      }
    } else if parts == [] {
      assert Split(".", '/') == ["."];
      assert Walk([], ["."], false) == [];
    }
  }

  /** Cleaning twice is cleaning once, and it keeps the components. */
  lemma CleanIsIdempotent(path: string)
    ensures Components(Clean(path)) == Components(path) && Rooted(Clean(path)) == Rooted(path)
    ensures Clean(Clean(path)) == Clean(path)
  {
    ComponentsAreCanonical(path);
    RenderedReadsBack(Rooted(path), Components(path));
  }

  lemma {:induction false} GlueConcatenation(a: seq<string>, b: seq<string>)
    requires a != [] && b != []
    ensures Glue(a + b) == Glue(a) + "/" + Glue(b)
    decreases |a|
  {
    assert (a + b)[1..] == a[1..] + b;
    if |a| > 1 {
      GlueConcatenation(a[1..], b);
    }
  }

  /** The string comparison in ResolveWithinRoot is a comparison of components, except that it accepts nothing below "/" or ".". */
  lemma PrefixMeansPrefix(rooted: bool, a: seq<string>, b: seq<string>)
    requires Canonical(a, rooted) && Canonical(b, rooted)
    ensures (Render(rooted, b) == Render(rooted, a) || HasPrefix(Render(rooted, b), Render(rooted, a) + "/"))
            <==> (b == a || (a != [] && a <= b))
  {
    var s, t := Render(rooted, a), Render(rooted, b);
    RenderedReadsBack(rooted, a);
    RenderedReadsBack(rooted, b);
    if HasPrefix(t, s + "/") {
      SplitAtPrefix(rooted, a, b);
    }
    if a != [] && a <= b && a != b {
      assert b == a + b[|a|..];
      GlueConcatenation(a, b[|a|..]);
      assert t[..|s| + 1] == s + "/";
    }
  }

  lemma SplitAtPrefix(rooted: bool, a: seq<string>, b: seq<string>)
    requires Canonical(a, rooted) && Canonical(b, rooted)
    requires HasPrefix(Render(rooted, b), Render(rooted, a) + "/")
    ensures a != [] && a <= b
  {
    if a == [] {
      NothingBelowBareRoot(rooted, b);
    } else {
      assert SlashFree(a) && SlashFree(b);
      hide Canonical, SlashFree, HasPrefix, Glue;
      if rooted {
        DropFirst(Glue(b), Glue(a) + "/");
        assert "/" + (Glue(a) + "/") == "/" + Glue(a) + "/";
      }
      PrefixCuts(Glue(b), Glue(a));
      GluedPrefix(a, b, Glue(b)[|Glue(a)| + 1..]);
    }
  }

  lemma DropFirst(s: string, p: string)
    ensures HasPrefix("/" + s, "/" + p) <==> HasPrefix(s, p)
  {
    if HasPrefix("/" + s, "/" + p) {
      assert forall i :: 0 <= i < |p| ==> s[i] == ("/" + s)[..|p| + 1][i + 1] == p[i];
    }
    if HasPrefix(s, p) {
      assert forall i :: 0 <= i < |p| ==> s[i] == s[..|p|][i];
    }
  }

  lemma PrefixCuts(t: string, s: string)
    requires HasPrefix(t, s + "/")
    ensures |t| > |s| && t == s + "/" + t[|s| + 1..]
  {
    assert t == t[..|s| + 1] + t[|s| + 1..];
  }

  lemma GluedPrefix(a: seq<string>, b: seq<string>, tail: string)
    requires a != [] && SlashFree(a) && SlashFree(b) && Glue(b) == Glue(a) + "/" + tail
    ensures a <= b
  {
    GlueSplits(a);
    GlueSplits(b);
    SplitConcatenation(Glue(a), '/', tail);
  }

  lemma NothingBelowBareRoot(rooted: bool, b: seq<string>)
    requires Canonical(b, rooted)
    ensures !HasPrefix(Render(rooted, b), Render(rooted, []) + "/")
  {
    if b != [] {
      assert b[0] != "" && '/' !in b[0] && b[0] != "." && SlashFree(b);
      hide Canonical, Split;
      FirstComponent(b);
      if rooted {
        SecondCharacter(Glue(b));
      } else if HasPrefix(Glue(b), "./") {
        GlueSplits(b);
        DotComponent(Glue(b));
      }
    }
  }

  lemma SecondCharacter(s: string)
    requires s != "" && s[0] != '/'
    ensures !HasPrefix("/" + s, "//")
  {
    assert ("/" + s)[..2][1] == s[0];
  }

  lemma DotComponent(s: string)
    requires HasPrefix(s, "./")
    ensures Split(s, '/')[0] == "."
  {
    assert s == "." + ['/'] + s[2..];
    SplitConcatenation(".", '/', s[2..]);
    assert Split(".", '/') == ["."];
  }

  lemma FirstComponent(parts: seq<string>)
    requires parts != [] && SlashFree(parts) && parts[0] != ""
    ensures Glue(parts) != "" && Glue(parts)[0] != '/'
  {
    assert Glue(parts)[0] == parts[0][0];
  }

  // Resolution

  /** Where a relative path leads: up by Ups of this, then down by the rest. */
  function Descent(rel: string): seq<string> {
    Walk([], Split(rel, '/'), false)
  }

  lemma JoinWalks(root: string, rel: string)
    requires root != ""
    ensures Rooted(Join(root, rel)) == Rooted(root)
    ensures Components(Join(root, rel)) == Walk(Components(root), Descent(rel), Rooted(root))
  {
    var joined := root + "/" + rel;
    CleanIsIdempotent(joined);
    SplitConcatenation(root, '/', rel);
    assert joined == root + ['/'] + rel;
    WalkConcatenation([], Split(root, '/'), Split(rel, '/'), Rooted(root));
    WalkOfCleaned(Components(root), Split(rel, '/'), Rooted(root));
  }

  lemma NoComponents(root: string)
    ensures root == "" ==> Components(root) == [] && !Rooted(root)
  {
    assert Split("", '/') == [""];
  }

  /** ResolveWithinRoot accepts exactly the paths whose components start with the root's components, for every root that
      has any; under "/" and "." it accepts only what stays there, and under an empty root no rooted path at all. */
  lemma ResolvesExactlyWithin(root: string, rel: string)
    requires rel != ""
    ensures var base, reached := Components(root), Walk(Components(root), Descent(rel), Rooted(root));
            var r := ResolveWithinRoot(root, rel);
            && (r.Ok? <==> (root != "" || !Rooted(rel)) && (reached == base || (base != [] && base <= reached)))
            && (r.Ok? ==> r.value == Render(Rooted(root), reached) && Components(r.value) == reached)
            && (r.Err? ==> r.error == EscapesRoot)
  {
    if root == "" {
      EmptyRootExactly(rel);
    } else {
      var joined := Join(root, rel);
      JoinWalks(root, rel);
      ComponentsAreCanonical(root);
      ComponentsAreCanonical(joined);
      PrefixMeansPrefix(Rooted(root), Components(root), Components(joined));
      RenderedReadsBack(Rooted(root), Components(joined));
    }
  }

  /** An empty root cleans to "." and drops out of the join. */
  lemma EmptyRootExactly(rel: string)
    requires rel != ""
    ensures Components("") == [] && !Rooted("")
    ensures var reached := Walk([], Descent(rel), false);
            && (ResolveWithinRoot("", rel).Ok? <==> !Rooted(rel) && reached == [])
            && (ResolveWithinRoot("", rel).Ok? ==>
                  ResolveWithinRoot("", rel).value == Render(false, reached) && Components(Render(false, reached)) == reached)
            && (ResolveWithinRoot("", rel).Err? ==> ResolveWithinRoot("", rel).error == EscapesRoot)
  {
    NoComponents("");
    CleanIsIdempotent(rel);
    ComponentsAreCanonical(rel);
    WalkIsCanonical([], Split(rel, '/'), false);
    WalkOfCanonical(Descent(rel), false);
    RenderedReadsBack(false, []);
    if Rooted(rel) {
      assert Clean(rel)[0] == '/' && Render(false, []) == ".";
    } else {
      PrefixMeansPrefix(false, [], Components(rel));
    }
  }

  /** The same, told from the request: it may climb k levels only if its names then lead back down the way it came. A root
      of ".." only cannot be left, and one without components takes only what stays there. */
  ghost predicate ComesBack(root: string, rel: string) {
    var base, k := Components(root), Ups(Descent(rel));
    var names := Descent(rel)[k..];
    if base == [] then names == [] && (k == 0 || Rooted(root)) && (root != "" || !Rooted(rel))
    else LeadsBack(base, k, names, Rooted(root))
  }

  ghost predicate LeadsBack(base: seq<string>, k: nat, names: seq<string>, rooted: bool) {
    var room := |base| - Ups(base);
    if k <= room then base[|base| - k..] <= names
    else if rooted then base <= names
    else room == 0
  }

  lemma {:induction false} ClimbDropsNames(base: seq<string>, k: nat, rooted: bool)
    requires Canonical(base, rooted) && k <= |base| - Ups(base)
    ensures Climb(base, k, rooted) == base[..|base| - k]
    decreases k
  {
    if k != 0 {
      var kept := base[..|base| - 1];
      LastIsName(base, rooted);
      UpsOfPrefix(base, |base| - 1);
      ClimbDropsNames(kept, k - 1, rooted);
    }
  }

  lemma LastIsName(base: seq<string>, rooted: bool)
    requires Canonical(base, rooted) && Ups(base) < |base|
    ensures base[|base| - 1] != UP
  {
    assert base[Ups(base)] != UP;
  }

  lemma {:induction false} UpsOfPrefix(base: seq<string>, n: nat)
    requires Ups(base) <= n <= |base|
    ensures Ups(base[..n]) == Ups(base)
  {
    if base != [] && base[0] == UP {
      UpsOfPrefix(base[1..], n - 1);
      assert base[..n][1..] == base[1..][..n - 1];
    }
  }

  lemma {:induction false} ClimbSplits(base: seq<string>, j: nat, k: nat, rooted: bool)
    ensures Climb(base, j + k, rooted) == Climb(Climb(base, j, rooted), k, rooted)
    decreases j
  {
    if j != 0 {
      ClimbSplits(Step(base, UP, rooted), j - 1, k, rooted);
    }
  }

  lemma {:induction false} ClimbStopsAtSlash(k: nat)
    ensures Climb([], k, true) == []
  {
    if k != 0 {
      ClimbStopsAtSlash(k - 1);
    }
  }

  /** Where a climb past every name of the base ends: at "/" or in ".." only. */
  lemma ClimbPastNames(base: seq<string>, k: nat, rooted: bool)
    requires Canonical(base, rooted) && |base| - Ups(base) < k
    ensures rooted ==> Climb(base, k, rooted) == []
    ensures !rooted ==> |Climb(base, k, rooted)| > Ups(base) && Climb(base, k, rooted)[Ups(base)] == UP
  {
    var room := |base| - Ups(base);
    hide Climb;
    ClimbDropsNames(base, room, rooted);
    ClimbSplits(base, room, k - room, rooted);
    if rooted {
      assert base[..Ups(base)] == [];
      ClimbStopsAtSlash(k - room);
    } else {
      ClimbOverUps(base[..Ups(base)], k - room);
    }
  }

  /** For every root and every request: exactly which requests are accepted. */
  lemma AcceptedExactlyWhenItComesBack(root: string, rel: string)
    requires rel != ""
    ensures ResolveWithinRoot(root, rel).Ok? <==> ComesBack(root, rel)
  {
    var base, rooted := Components(root), Rooted(root);
    var k := Ups(Descent(rel));
    var names := Descent(rel)[k..];
    ComponentsAreCanonical(root);
    NoComponents(root);
    DescentIsCanonical(rel);
    hide Walk, Climb, ResolveWithinRoot, Descent, Components, Canonical;
    WalkClimbsThenDescends(base, Descent(rel), rooted);
    ResolvesExactlyWithin(root, rel);
    if base == [] {
      StaysExactly(k, names, rooted);
    } else {
      LeadsBackExactly(base, k, names, rooted);
    }
  }

  lemma DescentIsCanonical(rel: string)
    ensures Canonical(Descent(rel), false)
  {
    WalkIsCanonical([], Split(rel, '/'), false);
  }

  lemma StaysExactly(k: nat, names: seq<string>, rooted: bool)
    ensures Climb([], k, rooted) + names == [] <==> names == [] && (k == 0 || rooted)
  {
    if rooted {
      ClimbStopsAtSlash(k);
    } else {
      ClimbFromTheTop(k);
    }
  }

  lemma LeadsBackExactly(base: seq<string>, k: nat, names: seq<string>, rooted: bool)
    requires Canonical(base, rooted) && base != []
    ensures base <= Climb(base, k, rooted) + names <==> LeadsBack(base, k, names, rooted)
  {
    var top := Climb(base, k, rooted);
    if k <= |base| - Ups(base) {
      ClimbDropsNames(base, k, rooted);
      PrefixAfterCommonStart(base, |base| - k, names);
    } else if rooted {
      ClimbPastNames(base, k, rooted);
      assert top + names == names;
    } else if Ups(base) < |base| {
      ClimbPastNames(base, k, rooted);
      assert (top + names)[Ups(base)] == UP && base[Ups(base)] != UP;
    } else {
      ClimbOverUps(base, k);
      assert base == top[..|base|];
    }
  }

  lemma PrefixAfterCommonStart(base: seq<string>, n: nat, names: seq<string>)
    requires n <= |base|
    ensures base <= base[..n] + names <==> base[n..] <= names
  {
    var reached := base[..n] + names;
    if base <= reached {
      assert forall i :: 0 <= i < |base| - n ==> base[n..][i] == base[n + i] == reached[n + i] == names[i];
    }
    if base[n..] <= names {
      assert forall i :: n <= i < |base| ==> reached[i] == names[i - n] == base[n..][i - n];
    }
  }

  // Validation

  /** validateRelPath, without the string tests: relative, never above its start, and no first name that begins with "..". */
  lemma ValidRelPathExactly(path: string)
    ensures ValidateRelPath(path).Ok?
            <==> path != "" && !Rooted(path) && (Components(path) == [] || !HasPrefix(Components(path)[0], UP))
    ensures ValidateRelPath(path).Ok? ==> AllNormal(Components(path))
  {
    var parts := Components(path);
    ComponentsAreCanonical(path);
    if path != "" && !Rooted(path) {
      if parts != [] {
        UpPrefixIsInFirst(parts);
      }
      assert forall i :: 0 < i < |parts| && parts[i] == UP ==> parts[0] == UP;
    }
  }

  lemma UpPrefixIsInFirst(parts: seq<string>)
    requires parts != [] && Canonical(parts, false)
    ensures HasPrefix(Glue(parts), UP) <==> HasPrefix(parts[0], UP)
  {
    var s, first := Glue(parts), parts[0];
    assert first <= s;
    assert Normal(first) || first == UP;
    if |first| == 1 {
      assert |s| > 1 ==> s[1] == '/';
      assert |s| > 1 ==> s[..2][1] == s[1];
    } else {
      assert s[..2] == first[..2];
    }
  }

  /** validateValuesFilePath accepts exactly the strings that are names joined by single slashes. */
  lemma ValidValuesPathExactly(path: string)
    ensures ValidateValuesFilePath(path).Ok? <==> AllNormal(Split(path, '/'))
    ensures ValidateValuesFilePath(path).Ok? ==> Components(path) == Split(path, '/')
  {
    var parts, written := Components(path), Split(path, '/');
    ComponentsAreCanonical(path);
    SplitGlues(path);
    if ValidateValuesFilePath(path).Ok? {
      GlueSplits(parts);
      assert parts == written;
      if parts[0] == UP {
        UpFirstShows(parts);
      }
      assert forall i :: 0 < i < |parts| && parts[i] == UP ==> parts[0] == UP;
    }
    if AllNormal(written) {
      FirstComponent(written);
      WalkNames([], written, false);
      assert parts == written;
      AllNormalIsValid(path, parts);
    }
  }

  lemma UpFirstShows(parts: seq<string>)
    requires parts != [] && parts[0] == UP
    ensures Glue(parts) == UP || HasPrefix(Glue(parts), UP + "/")
  {
    if |parts| > 1 {
      assert Glue(parts)[..3] == UP + "/";
    }
  }

  lemma AllNormalIsValid(path: string, parts: seq<string>)
    requires parts != [] && AllNormal(parts) && path == Glue(parts) && Clean(path) == path && path != "" && !Rooted(path)
    ensures ValidateValuesFilePath(path).Ok?
  {
    GlueSplits(parts);
    var clean := Clean(path);
    assert Split(".", '/') == ["."] && Split(UP, '/') == [UP];
    if HasPrefix(clean, UP + "/") {
      assert clean == UP + ['/'] + clean[3..];
      SplitConcatenation(UP, '/', clean[3..]);
      assert false;
    }
  }

  /** What either validation accepts, resolution accepts below any root that has components, and the result is the root's
      components followed by the cleaned ones, none of which is "..". */
  lemma ValidatedPathsResolve(root: string, rel: string)
    requires ValidateRelPath(rel).Ok? || ValidateValuesFilePath(rel).Ok?
    requires Components(root) != []
    ensures var r := ResolveWithinRoot(root, rel);
            && r.Ok? && Rooted(r.value) == Rooted(root)
            && Components(r.value) == Components(root) + Components(rel)
            && AllNormal(Components(rel))
  {
    NoComponents(root);
    ValidRelPathExactly(rel);
    ValidValuesPathExactly(rel);
    WalkNames(Components(root), Components(rel), Rooted(root));
    ResolvesExactlyWithin(root, rel);
    ComponentsAreCanonical(root);
    ComponentsAreCanonical(Join(root, rel));
    JoinWalks(root, rel);
    RenderedReadsBack(Rooted(root), Components(root) + Components(rel));
  }

  /** Two different values files in a valid spec are two different files. */
  lemma DistinctValuesFilesStayDistinct(root: string, a: string, b: string)
    requires ValidateValuesFilePath(a).Ok? && ValidateValuesFilePath(b).Ok? && a != b
    requires Components(root) != []
    ensures ResolveWithinRoot(root, a).Ok? && ResolveWithinRoot(root, b).Ok?
    ensures ResolveWithinRoot(root, a).value != ResolveWithinRoot(root, b).value
  {
    ValidatedPathsResolve(root, a);
    ValidatedPathsResolve(root, b);
    ValidValuesPathExactly(a);
    ValidValuesPathExactly(b);
    SplitGlues(a);
    SplitGlues(b);
    var base := Components(root);
    assert (base + Components(a))[|base|..] == Components(a);
    assert (base + Components(b))[|base|..] == Components(b);
  }

  /** Under a root of "/" the two checks disagree about every path that names something. */
  lemma BareRootRefusesValidPaths(root: string, rel: string)
    requires Components(root) == []
    requires ValidateRelPath(rel).Ok? || ValidateValuesFilePath(rel).Ok?
    ensures ResolveWithinRoot(root, rel).Ok? <==> Components(rel) == []
  {
    ValidRelPathExactly(rel);
    ValidValuesPathExactly(rel);
    WalkNames([], Components(rel), Rooted(root));
    ResolvesExactlyWithin(root, rel);
  }
}
