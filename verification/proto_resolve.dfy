/** How the proto extractor resolves names: the root an alias leads to, and the best of several
    definitions of one symbol.  A type name is modelled as parsed into package and short name. */
module ProtoResolve {
  import opened Common

  datatype TypeName = TypeName(pkg: string, short: string)

  datatype Kind = MessageKind | EnumKind

  predicate IsGoogle(pkg: string) { pkg == "google.protobuf" || pkg == "google.rpc" }

  // ---------------------------------------------------------------- aliases

  predicate IsRoot(direct: map<string, string>, symbol: string) {
    symbol !in direct || direct[symbol] == ""
  }

  /** The symbol after `n` alias steps; a root stays. */
  function Follow(direct: map<string, string>, symbol: string, n: nat): string {
    if n == 0 then symbol
    else
      var s := Follow(direct, symbol, n - 1);
      if IsRoot(direct, s) then s else direct[s]
  }

  lemma {:induction false} FollowAdd(direct: map<string, string>, symbol: string, m: nat, n: nat)
    ensures Follow(direct, symbol, m + n) == Follow(direct, Follow(direct, symbol, m), n)
  {
    if n > 0 { FollowAdd(direct, symbol, m, n - 1); }
  }

  /** A chain that meets a symbol twice before any root never meets one. */
  lemma {:induction false} CycleHasNoRoot(direct: map<string, string>, symbol: string, m: nat, n: nat, k: nat)
    requires m < n && Follow(direct, symbol, m) == Follow(direct, symbol, n)
    requires forall i :: 0 <= i < n ==> !IsRoot(direct, Follow(direct, symbol, i))
    ensures !IsRoot(direct, Follow(direct, symbol, k))
    decreases k
  {
    if k >= n {
      FollowAdd(direct, symbol, n, k - n);
      FollowAdd(direct, symbol, m, k - n);
      CycleHasNoRoot(direct, symbol, m, n, m + (k - n));
    }
  }

  /** resolveRoot: the root an alias leads to, or the alias itself if it leads to none. */
  method ResolveRoot(direct: map<string, string>, symbol: string) returns (root: string)
    ensures (exists n: nat :: Follow(direct, symbol, n) == root && IsRoot(direct, root))
         || (root == symbol && forall n: nat :: !IsRoot(direct, Follow(direct, symbol, n)))
  {
    var seen: set<string> := {};
    var current := symbol;
    ghost var steps: nat := 0;
    while true
      invariant current == Follow(direct, symbol, steps)
      invariant forall s :: s in seen ==> exists i: nat :: i < steps && Follow(direct, symbol, i) == s
      invariant forall i: nat :: i < steps ==> !IsRoot(direct, Follow(direct, symbol, i))
      invariant seen <= direct.Keys
      decreases direct.Keys - seen
    {
      if current in seen {
        ghost var m: nat :| m < steps && Follow(direct, symbol, m) == current;
        forall k: nat ensures !IsRoot(direct, Follow(direct, symbol, k)) {
          CycleHasNoRoot(direct, symbol, m, steps, k);
        }
        return symbol;
      }
      if current !in direct || direct[current] == "" { return current; }
      seen := seen + {current};
      current := direct[current];
      steps := steps + 1;
    }
  }

  // ---------------------------------------------------------------- the best definition of a symbol

  datatype Definition = Definition(name: TypeName, pos: int, kind: Kind, moduleStart: int)

  function Keep(defs: seq<Definition>, test: Definition -> bool): seq<Definition> {
    if defs == [] then []
    else Keep(defs[..|defs| - 1], test) + if test(defs[|defs| - 1]) then [defs[|defs| - 1]] else []
  }

  /** A filter is applied only if it leaves something. */
  function Prefer(defs: seq<Definition>, test: Definition -> bool): (kept: seq<Definition>)
    ensures defs != [] ==> kept != []
  {
    if Keep(defs, test) == [] then defs else Keep(defs, test)
  }

  function Candidates(defs: seq<Definition>, moduleStart: int, pkg: string, kind: Kind): seq<Definition> {
    var byKind := Prefer(defs, (d: Definition) => d.kind == kind);
    var byPkg := if pkg == "" then byKind else Prefer(byKind, (d: Definition) => d.name.pkg == pkg);
    if moduleStart > 0 then Prefer(byPkg, (d: Definition) => d.moduleStart == moduleStart) else byPkg
  }

  function Distance(d: Definition, pos: int): nat { if d.pos - pos < 0 then pos - d.pos else d.pos - pos }

  /** `d` is at least as good as `e`: nearer, or as near and not later in the text. */
  predicate AsGood(d: Definition, e: Definition, pos: int) {
    Distance(d, pos) < Distance(e, pos) || (Distance(d, pos) == Distance(e, pos) && (d.pos <= pos || e.pos > pos))
  }

  method Filter(defs: seq<Definition>, test: Definition -> bool) returns (kept: seq<Definition>)
    ensures kept == Prefer(defs, test)
  {
    kept := [];
    for i := 0 to |defs|
      invariant kept == Keep(defs[..i], test)
    {
      assert defs[..i + 1][..i] == defs[..i];
      if test(defs[i]) { kept := kept + [defs[i]]; }
    }
    assert defs[..|defs|] == defs;
    if kept == [] { kept := defs; }
  }

  ghost predicate IsNearest(c: seq<Definition>, pos: int, best: Definition) {
    exists i :: 0 <= i < |c| && c[i] == best
                && (forall j :: 0 <= j < |c| ==> AsGood(c[i], c[j], pos))
                && (forall j :: 0 <= j < i ==> !AsGood(c[j], c[i], pos))
  }

  /** The scan of pickBestDefinition: the nearest candidate, the earlier text on a tie, the first of
      equals. */
  method Nearest(filtered: seq<Definition>, pos: int) returns (best: Definition)
    requires filtered != []
    ensures IsNearest(filtered, pos, best)
  {
    var bestIndex, bestDistance, bestIsFuture := 0, Distance(filtered[0], pos), filtered[0].pos > pos;
    for index := 1 to |filtered|
      invariant 0 <= bestIndex < index
      invariant bestDistance == Distance(filtered[bestIndex], pos) && bestIsFuture == (filtered[bestIndex].pos > pos)
      invariant forall j :: 0 <= j < index ==> AsGood(filtered[bestIndex], filtered[j], pos)
      invariant forall j :: 0 <= j < bestIndex ==> !AsGood(filtered[j], filtered[bestIndex], pos)
    {
      var distance := Distance(filtered[index], pos);
      var isFuture := filtered[index].pos > pos;
      if distance < bestDistance {
        bestIndex, bestDistance, bestIsFuture := index, distance, isFuture;
      } else if distance == bestDistance && bestIsFuture && !isFuture {
        bestIndex, bestIsFuture := index, isFuture;
      }
    }
    best := filtered[bestIndex];
  }

  /** pickBestDefinition. */
  method PickBest(defs: seq<Definition>, pos: int, moduleStart: int, pkg: string, kind: Kind)
    returns (best: Option<Definition>)
    ensures best.None? <==> defs == []
    ensures best.Some? ==> IsNearest(Candidates(defs, moduleStart, pkg, kind), pos, best.value)
  {
    if defs == [] { return None; }
    var filtered := Filter(defs, (d: Definition) => d.kind == kind);
    if pkg != "" { filtered := Filter(filtered, (d: Definition) => d.name.pkg == pkg); }
    if moduleStart > 0 { filtered := Filter(filtered, (d: Definition) => d.moduleStart == moduleStart); }
    assert filtered == Candidates(defs, moduleStart, pkg, kind);
    var nearest := Nearest(filtered, pos);
    best := Some(nearest);
  }

  lemma {:induction false} KeepKeeps(defs: seq<Definition>, test: Definition -> bool)
    ensures forall d :: d in Keep(defs, test) <==> d in defs && test(d)
  {
    if defs != [] {
      KeepKeeps(defs[..|defs| - 1], test);
      assert forall d :: d in defs <==> d in defs[..|defs| - 1] || d == defs[|defs| - 1];
    }
  }

  /** A definition of the wrong kind is considered only if there is none of the right one, and one of
      another package only if the preferred package has none of that kind. */
  lemma CandidatesPreferKindThenPackage(defs: seq<Definition>, moduleStart: int, pkg: string, kind: Kind)
    ensures var c := Candidates(defs, moduleStart, pkg, kind);
            && (defs != [] ==> c != [])
            && (forall d :: d in c ==> d in defs)
            && ((exists d :: d in defs && d.kind == kind) ==> forall d :: d in c ==> d.kind == kind)
            && ((exists d :: d in defs && d.kind == kind && d.name.pkg == pkg && pkg != "")
                ==> forall d :: d in c ==> d.kind == kind && d.name.pkg == pkg)
  {
    var isKind := (d: Definition) => d.kind == kind;
    var isPkg := (d: Definition) => d.name.pkg == pkg;
    var inModule := (d: Definition) => d.moduleStart == moduleStart;
    KeepKeeps(defs, isKind);
    var byKind := Prefer(defs, isKind);
    KeepKeeps(byKind, isPkg);
    var byPkg := if pkg == "" then byKind else Prefer(byKind, isPkg);
    KeepKeeps(byPkg, inModule);
    assert Candidates(defs, moduleStart, pkg, kind) == if moduleStart > 0 then Prefer(byPkg, inModule) else byPkg;
  }
}
