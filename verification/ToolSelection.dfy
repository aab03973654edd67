// internal/agent/runner.go: the tool list of a model request, from the catalog's
// selection through the on-device hints, the discovery tools, the profile filter
// and the conversation's history.
module ToolSelection {
  import opened Wrappers
  import opened Provider
  import opened ToolNames
  import opened Transcript
  import Text

  // ------------------------------------------------------------------
  // Lists of definitions
  // ------------------------------------------------------------------

  ghost function Names(defs: seq<ToolDef>): set<string> { set d | d in defs :: d.name }

  ghost predicate NoDup(defs: seq<ToolDef>) {
    forall i, j :: 0 <= i < j < |defs| ==> defs[i].name != defs[j].name
  }

  // The definitions of defs, in order, whose name is neither in seen nor repeated.
  ghost function Fresh(seen: set<string>, defs: seq<ToolDef>): seq<ToolDef>
    decreases |defs|
  {
    if defs == [] then []
    else
      var front := Fresh(seen, defs[..|defs| - 1]);
      var d := defs[|defs| - 1];
      if d.name in seen + Names(front) then front else front + [d]
  }

  lemma NamesOfConcat(a: seq<ToolDef>, b: seq<ToolDef>)
    ensures Names(a + b) == Names(a) + Names(b)
  {
    assert forall d :: d in a + b <==> d in a || d in b;
  }

  lemma FreshSnoc(seen: set<string>, all: seq<ToolDef>, front: seq<ToolDef>, d: ToolDef)
    requires all == front + [d]
    ensures var f := Fresh(seen, front); Fresh(seen, all) == if d.name in seen || d.name in Names(f) then f else f + [d]
  {
    assert all[..|all| - 1] == front;
  }

  lemma NamesSnoc(all: seq<ToolDef>, front: seq<ToolDef>, d: ToolDef)
    requires all == front + [d]
    ensures Names(all) == Names(front) + {d.name}
  {
    NamesOfConcat(front, [d]);
    assert d in [d];
  }

  lemma NoDupSnoc(defs: seq<ToolDef>, d: ToolDef)
    requires NoDup(defs) && d.name !in Names(defs)
    ensures NoDup(defs + [d])
  {
    assert forall i :: 0 <= i < |defs| ==> defs[i] in defs;
  }

  lemma {:induction false} FreshNames(seen: set<string>, defs: seq<ToolDef>)
    ensures Names(Fresh(seen, defs)) == Names(defs) - seen
    decreases |defs|
  {
    if defs != [] {
      var front, d := defs[..|defs| - 1], defs[|defs| - 1];
      var f := Fresh(seen, front);
      FreshNames(seen, front);
      FreshSnoc(seen, defs, front, d);
      NamesSnoc(defs, front, d);
      NamesSnoc(f + [d], f, d);
    }
  }

  lemma {:induction false} FreshShape(seen: set<string>, defs: seq<ToolDef>)
    ensures NoDup(Fresh(seen, defs)) && |Fresh(seen, defs)| <= |defs|
    ensures Names(Fresh(seen, defs)) == Names(defs) - seen
    ensures forall d :: d in Fresh(seen, defs) ==> d in defs
    decreases |defs|
  {
    FreshNames(seen, defs);
    if defs != [] {
      var front, d := defs[..|defs| - 1], defs[|defs| - 1];
      var f := Fresh(seen, front);
      FreshShape(seen, front);
      FreshSnoc(seen, defs, front, d);
      if d.name !in Names(f) {
        NoDupSnoc(f, d);
      }
    }
  }

  lemma {:induction false} FreshConcat(seen: set<string>, a: seq<ToolDef>, b: seq<ToolDef>)
    ensures Fresh(seen, a + b) == Fresh(seen, a) + Fresh(seen + Names(Fresh(seen, a)), b)
    decreases |b|
  {
    if b == [] {
      assert a + b == a;
    } else {
      var front, d := b[..|b| - 1], b[|b| - 1];
      FreshConcat(seen, a, front);
      LastApart(a, b);
      FreshSnoc(seen, a + b, a + front, d);
      FreshSnoc(seen + Names(Fresh(seen, a)), b, front, d);
      AddOne(seen, Fresh(seen, a), Fresh(seen + Names(Fresh(seen, a)), front), d);
    }
  }

  lemma LastApart(a: seq<ToolDef>, b: seq<ToolDef>)
    requires b != []
    ensures b == b[..|b| - 1] + [b[|b| - 1]] && a + b == a + b[..|b| - 1] + [b[|b| - 1]]
  {
  }

  // Adding one definition behind two lists.
  lemma AddOne(seen: set<string>, fa: seq<ToolDef>, fb: seq<ToolDef>, d: ToolDef)
    ensures d.name in seen || d.name in Names(fa + fb) <==> d.name in seen + Names(fa) || d.name in Names(fb)
    ensures fa + (fb + [d]) == (fa + fb) + [d]
  {
    NamesOfConcat(fa, fb);
  }

  // ------------------------------------------------------------------
  // On-device hints
  // ------------------------------------------------------------------

  // How many hints may be placed ahead of the catalog's selection.
  function HintCap(hints: nat, maxTools: int): nat {
    if maxTools > 0 then Min(hints, if maxTools / 3 < 3 then 3 else maxTools / 3) else hints
  }

  // The definitions of the first `cap` registered hints, repetitions included.
  function Picked(tools: map<string, ToolDef>, hints: seq<string>, cap: nat): seq<ToolDef>
    decreases |hints|
  {
    if hints == [] then []
    else
      var front := Picked(tools, hints[..|hints| - 1], cap);
      var h := hints[|hints| - 1];
      if |front| < cap && h in tools then front + [tools[h]] else front
  }

  function Cut(maxTools: int, defs: seq<ToolDef>): seq<ToolDef> {
    if maxTools > 0 && |defs| > maxTools then defs[..maxTools] else defs
  }

  ghost function WithHints(tools: map<string, ToolDef>, hints: seq<string>, base: seq<ToolDef>,
                           maxTools: int): seq<ToolDef> {
    if hints == [] then base
    else Cut(maxTools, Fresh({}, Picked(tools, hints, HintCap(|hints|, maxTools)) + base))
  }

  lemma {:induction false} PickedShape(tools: map<string, ToolDef>, hints: seq<string>, cap: nat)
    requires Filed(tools)
    ensures |Picked(tools, hints, cap)| <= cap
    ensures forall d :: d in Picked(tools, hints, cap) ==> d.name in hints && d.name in tools && d == tools[d.name]
    decreases |hints|
  {
    if hints != [] {
      PickedShape(tools, hints[..|hints| - 1], cap);
    }
  }

  // Once the cap is reached, further hints change nothing.
  lemma {:induction false} PickedFull(tools: map<string, ToolDef>, hints: seq<string>, cap: nat, i: nat)
    requires i <= |hints| && |Picked(tools, hints[..i], cap)| >= cap
    ensures Picked(tools, hints, cap) == Picked(tools, hints[..i], cap)
    decreases |hints|
  {
    if i == |hints| {
      assert hints[..i] == hints;
    } else {
      assert hints[..|hints| - 1][..i] == hints[..i];
      PickedFull(tools, hints[..|hints| - 1], cap, i);
    }
  }

  // The base tools that are not among the hints.
  ghost function Others(tools: map<string, ToolDef>, hints: seq<string>, base: seq<ToolDef>,
                        maxTools: int): seq<ToolDef> {
    Fresh(Names(Picked(tools, hints, HintCap(|hints|, maxTools))), base)
  }

  lemma HintsThenOthers(tools: map<string, ToolDef>, hints: seq<string>, base: seq<ToolDef>, maxTools: int)
    returns (hinted: seq<ToolDef>)
    requires Filed(tools) && hints != []
    ensures WithHints(tools, hints, base, maxTools) == Cut(maxTools, hinted + Others(tools, hints, base, maxTools))
    ensures NoDup(hinted + Others(tools, hints, base, maxTools))
    ensures |hinted| <= HintCap(|hints|, maxTools)
    ensures forall d :: d in hinted ==> d.name in hints && d.name in tools && d == tools[d.name]
    ensures Names(hinted) == Names(Picked(tools, hints, HintCap(|hints|, maxTools)))
  {
    var picked := Picked(tools, hints, HintCap(|hints|, maxTools));
    hinted := Fresh({}, picked);
    PickedShape(tools, hints, HintCap(|hints|, maxTools));
    FreshShape({}, picked);
    FreshShape({}, picked + base);
    FreshConcat({}, picked, base);
    assert {} + Names(hinted) == Names(picked);
  }

  lemma CutConcat(maxTools: int, a: seq<ToolDef>, b: seq<ToolDef>) returns (i: nat, k: nat)
    requires maxTools > 0
    ensures i <= |a| && k <= |b| && Cut(maxTools, a + b) == a[..i] + b[..k]
    ensures k >= Min(|b|, if maxTools > |a| then maxTools - |a| else 0)
  {
    if |a| + |b| <= maxTools {
      i, k := |a|, |b|;
      assert a[..i] == a && b[..k] == b;
    } else {
      i := Min(|a|, maxTools);
      k := maxTools - i;
      assert (a + b)[..maxTools] == a[..i] + b[..k];
    }
  }

  // The hints fill at most max(3, MaxTools/3) places, each name occurs once, the
  // list respects MaxTools, and the places the hint cap leaves over go to the base
  // tools that are not hints, in their order.
  lemma HintsLeaveRoom(tools: map<string, ToolDef>, hints: seq<string>, base: seq<ToolDef>, maxTools: int)
    returns (ahead: seq<ToolDef>, kept: nat)
    requires Filed(tools) && hints != [] && maxTools > 0
    ensures var out := WithHints(tools, hints, base, maxTools);
            && NoDup(out) && |out| <= maxTools
            && kept <= |Others(tools, hints, base, maxTools)|
            && out == ahead + Others(tools, hints, base, maxTools)[..kept]
    ensures |ahead| <= |hints| && (|ahead| <= 3 || |ahead| <= maxTools / 3)
    ensures forall d :: d in ahead ==> d.name in hints && d.name in tools && d == tools[d.name]
    ensures var others := Others(tools, hints, base, maxTools);
            && (forall d :: d in others ==> d in base)
            && (forall d :: d in base ==> d.name in Names(others) || d.name in hints)
            && (kept == |others| || (if maxTools >= 9 then kept >= maxTools - maxTools / 3 else kept >= maxTools - 3))
  {
    var cap := HintCap(|hints|, maxTools);
    PickedShape(tools, hints, cap);
    FreshShape(Names(Picked(tools, hints, cap)), base);
    var hinted := HintsThenOthers(tools, hints, base, maxTools);
    var i, k := CutConcat(maxTools, hinted, Others(tools, hints, base, maxTools));
    ahead, kept := hinted[..i], k;
  }

  lemma {:induction false} PickedEarly(tools: map<string, ToolDef>, hints: seq<string>, cap: nat, i: nat)
    requires Filed(tools) && i < |hints| && i < cap && hints[i] in tools
    ensures hints[i] in Names(Picked(tools, hints, cap))
    decreases |hints|
  {
    var front := Picked(tools, hints[..|hints| - 1], cap);
    PickedCount(tools, hints[..|hints| - 1], cap);
    if i == |hints| - 1 {
      NamesOfConcat(front, [tools[hints[i]]]);
      assert tools[hints[i]] in [tools[hints[i]]];
    } else {
      PickedEarly(tools, hints[..|hints| - 1], cap, i);
      NamesOfConcat(front, Picked(tools, hints, cap)[|front|..]);
      assert Picked(tools, hints, cap) == front + Picked(tools, hints, cap)[|front|..];
    }
  }

  lemma {:induction false} PickedCount(tools: map<string, ToolDef>, hints: seq<string>, cap: nat)
    ensures |Picked(tools, hints, cap)| <= |hints|
    decreases |hints|
  {
    if hints != [] {
      PickedCount(tools, hints[..|hints| - 1], cap);
    }
  }

  // A registered hint among the first max(3, MaxTools/3) is on the list, if the list is
  // that long.
  lemma HintPlaced(tools: map<string, ToolDef>, hints: seq<string>, base: seq<ToolDef>, maxTools: int, i: nat)
    requires Filed(tools) && i < |hints| && hints[i] in tools
    requires maxTools <= 0 || (i < 3 <= maxTools) || i < maxTools / 3
    ensures hints[i] in Names(WithHints(tools, hints, base, maxTools))
  {
    var cap := HintCap(|hints|, maxTools);
    var hinted := HintsThenOthers(tools, hints, base, maxTools);
    var others := Others(tools, hints, base, maxTools);
    PickedEarly(tools, hints, cap, i);
    var d :| d in hinted && d.name == hints[i];
    CutKeeps(maxTools, hinted, others, d);
  }

  lemma CutKeeps(maxTools: int, a: seq<ToolDef>, b: seq<ToolDef>, d: ToolDef)
    requires d in a && (maxTools <= 0 || |a| <= maxTools)
    ensures d in Cut(maxTools, a + b)
  {
    if maxTools > 0 && |a| + |b| > maxTools {
      assert Cut(maxTools, a + b) == a + b[..maxTools - |a|];
    }
  }

  // Without a limit nothing of the base is lost, and without hints nothing changes.
  lemma BaseStays(tools: map<string, ToolDef>, hints: seq<string>, base: seq<ToolDef>, maxTools: int)
    requires Filed(tools) && (hints == [] || maxTools <= 0)
    ensures hints == [] ==> WithHints(tools, hints, base, maxTools) == base
    ensures Names(base) <= Names(WithHints(tools, hints, base, maxTools))
  {
    if hints != [] {
      var picked := Picked(tools, hints, HintCap(|hints|, maxTools));
      FreshShape({}, picked + base);
      NamesOfConcat(picked, base);
    }
  }

  lemma WithHintsFrom(tools: map<string, ToolDef>, hints: seq<string>, base: seq<ToolDef>, maxTools: int)
    requires Filed(tools)
    ensures forall d :: d in WithHints(tools, hints, base, maxTools) ==>
              d in base || (d.name in hints && d.name in tools && d == tools[d.name])
  {
    if hints != [] {
      var picked := Picked(tools, hints, HintCap(|hints|, maxTools));
      PickedShape(tools, hints, HintCap(|hints|, maxTools));
      FreshShape({}, picked + base);
      CutMembers(maxTools, Fresh({}, picked + base));
    }
  }

  lemma CutMembers(maxTools: int, defs: seq<ToolDef>)
    ensures forall d :: d in Cut(maxTools, defs) ==> d in defs
  {
  }

  // mergeLocalIntelToolHints
  method MergeLocalIntelToolHints(registry: ToolRegistry, hints: seq<string>, base: seq<ToolDef>, maxTools: int)
    returns (out: seq<ToolDef>)
    requires registry.Valid()
    ensures out == WithHints(registry.tools, hints, base, maxTools)
  {
    if |hints| == 0 {
      return base;
    }
    var cap := |hints|;
    if maxTools > 0 {
      var maxLocal := maxTools / 3;
      if maxLocal < 3 {
        maxLocal := 3;
      }
      if cap > maxLocal {
        cap := maxLocal;
      }
    }
    out := AddHints(registry, hints, cap);
    out := AddBase(Picked(registry.tools, hints, cap), out, base);
    if maxTools > 0 && |out| > maxTools {
      out := out[..maxTools];
    }
  }

  // The first loop: the first `cap` registered hints.
  method AddHints(registry: ToolRegistry, hints: seq<string>, cap: nat) returns (out: seq<ToolDef>)
    requires registry.Valid()
    ensures out == Fresh({}, Picked(registry.tools, hints, cap))
  {
    var seen: set<string> := {};
    out := [];
    var added, i := 0, 0;
    ghost var picked: seq<ToolDef> := [];
    while i < |hints| && added < cap
      invariant 0 <= i <= |hints|
      invariant picked == Picked(registry.tools, hints[..i], cap) && |picked| == added <= cap
      invariant out == Fresh({}, picked) && seen == Names(out)
      decreases |hints| - i
    {
      assert hints[..i + 1][..i] == hints[..i];
      if hints[i] in registry.tools {
        var d := registry.tools[hints[i]];
        assert (picked + [d])[..|picked|] == picked;
        picked := picked + [d];
        seen, out := Add(seen, out, d);
        added := added + 1;
      }
      i := i + 1;
    }
    if added < cap {
      assert hints[..i] == hints;
    } else {
      PickedFull(registry.tools, hints, cap, i);
    }
  }

  lemma FreshNext(picked: seq<ToolDef>, base: seq<ToolDef>, j: nat)
    requires j < |base|
    ensures var f := Fresh({}, picked + base[..j]);
            Fresh({}, picked + base[..j + 1]) == if base[j].name in Names(f) then f else f + [base[j]]
  {
    FreshSnoc({}, picked + base[..j + 1], picked + base[..j], base[j]);
  }

  // The second loop: the catalog's selection.
  method AddBase(ghost picked: seq<ToolDef>, hinted: seq<ToolDef>, base: seq<ToolDef>) returns (out: seq<ToolDef>)
    requires hinted == Fresh({}, picked)
    ensures out == Fresh({}, picked + base)
  {
    var seen := NameSet(hinted);
    out := hinted;
    assert picked + base[..0] == picked;
    for j := 0 to |base|
      invariant out == Fresh({}, picked + base[..j]) && seen == Names(out)
    {
      FreshNext(picked, base, j);
      seen, out := Add(seen, out, base[j]);
    }
    assert base[..|base|] == base;
  }

  // The add closure: appends a definition whose name is new.
  method Add(seen: set<string>, out: seq<ToolDef>, d: ToolDef) returns (seen': set<string>, out': seq<ToolDef>)
    requires seen == Names(out)
    ensures out' == if d.name in seen then out else out + [d]
    ensures seen' == Names(out')
  {
    if d.name in seen {
      return seen, out;
    }
    NamesOfConcat(out, [d]);
    return seen + {d.name}, out + [d];
  }

  // ------------------------------------------------------------------
  // Profile filter
  // ------------------------------------------------------------------

  // The tools the filter removes under the given profile.
  datatype Profile = Profile(coding: bool, unsafe: set<string>)

  function Safe(unsafe: set<string>, defs: seq<ToolDef>): seq<ToolDef>
    decreases |defs|
  {
    if defs == [] then []
    else
      var front := Safe(unsafe, defs[..|defs| - 1]);
      var d := defs[|defs| - 1];
      if d.name in unsafe then front else front + [d]
  }

  function Filtered(p: Profile, defs: seq<ToolDef>): seq<ToolDef> { if p.coding then Safe(p.unsafe, defs) else defs }

  // filterTools
  method FilterTools(p: Profile, defs: seq<ToolDef>) returns (r: seq<ToolDef>)
    ensures r == Filtered(p, defs)
  {
    if !p.coding {
      return defs;
    }
    r := [];
    for i := 0 to |defs|
      invariant r == Safe(p.unsafe, defs[..i])
    {
      assert defs[..i + 1][..i] == defs[..i];
      if defs[i].name !in p.unsafe {
        r := r + [defs[i]];
      }
    }
    assert defs[..|defs|] == defs;
  }

  lemma {:induction false} SafeMembers(unsafe: set<string>, defs: seq<ToolDef>)
    ensures forall d :: d in Safe(unsafe, defs) <==> d in defs && d.name !in unsafe
    decreases |defs|
  {
    if defs != [] {
      SafeMembers(unsafe, defs[..|defs| - 1]);
      assert defs == defs[..|defs| - 1] + [defs[|defs| - 1]];
    }
  }

  lemma {:induction false} SafeShape(unsafe: set<string>, defs: seq<ToolDef>)
    ensures forall d :: d in Safe(unsafe, defs) <==> d in defs && d.name !in unsafe
    ensures NoDup(defs) ==> NoDup(Safe(unsafe, defs))
    decreases |defs|
  {
    SafeMembers(unsafe, defs);
    if defs != [] && NoDup(defs) {
      var front, d := defs[..|defs| - 1], defs[|defs| - 1];
      var safe := Safe(unsafe, front);
      SafeShape(unsafe, front);
      SafeMembers(unsafe, front);
      assert d.name !in Names(safe);
      NoDupSnoc(safe, d);
    }
  }

  lemma {:induction false} SafeAlready(unsafe: set<string>, defs: seq<ToolDef>)
    requires forall d :: d in defs ==> d.name !in unsafe
    ensures Safe(unsafe, defs) == defs
    decreases |defs|
  {
    if defs != [] {
      SafeAlready(unsafe, defs[..|defs| - 1]);
    }
  }

  // ------------------------------------------------------------------
  // Discovery tools and history
  // ------------------------------------------------------------------

  // The coding profile's exclusions and the discovery tools.
  const UNSAFE: set<string> :=
    {"browser_navigate", "browser_screenshot", "web_search", "web_fetch", "message", "cron", "image_understand"}

  const DISCOVERY: seq<string> := ["find_tools", "devops.diagnose", "system.list_capabilities"]

  lemma DiscoveryIsSafe()
    ensures DISCOVERY == ["find_tools", "devops.diagnose", "system.list_capabilities"]
    ensures forall n :: n in DISCOVERY ==> n !in UNSAFE
  {
    forall n | n in DISCOVERY ensures n !in UNSAFE {
      forall u | u in UNSAFE ensures n != u {
        assert |n| != |u| || n[0] != u[0];
      }
    }
  }

  // A target with the registered tools among names that it lacks, in the order of names.
  ghost function Discovered(tools: map<string, ToolDef>, target: seq<ToolDef>, names: seq<string>): seq<ToolDef>
    decreases |names|
  {
    if names == [] then target
    else
      var front := Discovered(tools, target, names[..|names| - 1]);
      var n := names[|names| - 1];
      if n in tools && n !in Names(front) then front + [tools[n]] else front
  }

  lemma {:induction false} DiscoveredShape(tools: map<string, ToolDef>, target: seq<ToolDef>, names: seq<string>)
    requires Filed(tools)
    ensures target <= Discovered(tools, target, names)
    ensures NoDup(target) ==> NoDup(Discovered(tools, target, names))
    ensures forall n :: n in names && n in tools ==> n in Names(Discovered(tools, target, names))
    ensures forall d :: d in Discovered(tools, target, names) ==>
              d in target || (d.name in names && d.name in tools && d == tools[d.name])
    decreases |names|
  {
    if names != [] {
      var front := names[..|names| - 1];
      var n := names[|names| - 1];
      DiscoveredShape(tools, target, front);
      var before := Discovered(tools, target, front);
      assert names == front + [n];
      if n in tools && n !in Names(before) {
        NamesOfConcat(before, [tools[n]]);
        assert forall k :: 0 <= k < |before| ==> before[k] in before;
        assert tools[n] in [tools[n]];
      }
    }
  }

  // The discovery loop of selectTools.
  method AddDiscovery(registry: ToolRegistry, target: seq<ToolDef>, names: seq<string>) returns (out: seq<ToolDef>)
    requires registry.Valid()
    ensures out == Discovered(registry.tools, target, names)
  {
    out := target;
    var seen := NameSet(target);
    for i := 0 to |names|
      invariant out == Discovered(registry.tools, target, names[..i]) && seen == Names(out)
    {
      assert names[..i + 1][..i] == names[..i];
      if names[i] !in seen && names[i] in registry.tools {
        seen, out := Add(seen, out, registry.tools[names[i]]);
      }
    }
    assert names[..|names|] == names;
  }

  method NameSet(defs: seq<ToolDef>) returns (names: set<string>)
    ensures names == Names(defs)
  {
    names := {};
    for i := 0 to |defs|
      invariant names == Names(defs[..i])
    {
      assert defs[..i + 1] == defs[..i] + [defs[i]];
      NamesOfConcat(defs[..i], [defs[i]]);
      names := names + {defs[i].name};
    }
    assert defs[..|defs|] == defs;
  }

  // The list selectTools makes: the catalog's choice, or all registered tools without
  // a catalog, with hints ahead, discovery tools behind, and the profile's filter.
  ghost predicate Selection(tools: map<string, ToolDef>, selected: Option<seq<ToolDef>>, hints: seq<string>,
                            maxTools: int, discovery: seq<string>, p: Profile, out: seq<ToolDef>) {
    exists base :: && (if selected.Some? then base == selected.value else Lists(base, tools))
                   && out == Filtered(p, Discovered(tools, WithHints(tools, hints, base, maxTools), discovery))
  }

  // No name occurs twice unless the catalog repeats one, every registered discovery tool
  // that the profile allows is there, and nothing that the profile excludes.
  lemma SelectionShape(tools: map<string, ToolDef>, selected: Option<seq<ToolDef>>, hints: seq<string>, maxTools: int,
                       discovery: seq<string>, p: Profile, out: seq<ToolDef>)
    requires Filed(tools) && Selection(tools, selected, hints, maxTools, discovery, p, out)
    ensures hints != [] || selected.None? || NoDup(selected.value) ==> NoDup(out)
    ensures forall n :: n in discovery && n in tools && n !in p.unsafe ==> n in Names(out)
    ensures p.coding ==> forall d :: d in out ==> d.name !in p.unsafe
  {
    var base :| && (if selected.Some? then base == selected.value else Lists(base, tools))
                && out == Filtered(p, Discovered(tools, WithHints(tools, hints, base, maxTools), discovery));
    var hinted := WithHints(tools, hints, base, maxTools);
    var target := Discovered(tools, hinted, discovery);
    HintsKeepNoDup(tools, hints, base, maxTools);
    DiscoveredShape(tools, hinted, discovery);
    SafeShape(p.unsafe, target);
    forall n | n in discovery && n in tools && n !in p.unsafe ensures n in Names(out) {
      var d :| d in target && d.name == n;
      assert d in out;
    }
  }

  // Without hints the list has what the catalog chose, or every registered tool without a
  // catalog, and the registered discovery tools, less what a coding profile excludes.
  lemma SelectionIs(tools: map<string, ToolDef>, selected: Option<seq<ToolDef>>, maxTools: int,
                    discovery: seq<string>, p: Profile, out: seq<ToolDef>, n: string)
    requires Filed(tools) && Selection(tools, selected, [], maxTools, discovery, p, out)
    ensures n in Names(out) <==>
              && !(p.coding && n in p.unsafe)
              && ((n in tools && (selected.None? || n in discovery))
                  || (selected.Some? && exists d :: d in selected.value && d.name == n))
    ensures !p.coding && selected.Some? ==> selected.value <= out
  {
    var base :| && (if selected.Some? then base == selected.value else Lists(base, tools))
                && out == Filtered(p, Discovered(tools, WithHints(tools, [], base, maxTools), discovery));
    var target := Discovered(tools, base, discovery);
    BaseStays(tools, [], base, maxTools);
    DiscoveredShape(tools, base, discovery);
    SafeShape(p.unsafe, target);
    if selected.None? {
      ListsAll(tools, base, n);
    }
    DiscoveredNames(tools, base, discovery, n);
    FilteredNames(p, target, n);
  }

  lemma DiscoveredNames(tools: map<string, ToolDef>, target: seq<ToolDef>, names: seq<string>, n: string)
    requires Filed(tools)
    ensures n in Names(Discovered(tools, target, names)) <==> n in Names(target) || (n in names && n in tools)
  {
    DiscoveredShape(tools, target, names);
    if n in Names(target) {
      var d :| d in target && d.name == n;
      assert d in Discovered(tools, target, names);
    }
  }

  lemma FilteredNames(p: Profile, defs: seq<ToolDef>, n: string)
    ensures n in Names(Filtered(p, defs)) <==> n in Names(defs) && !(p.coding && n in p.unsafe)
  {
    SafeMembers(p.unsafe, defs);
    if n in Names(defs) && !(p.coding && n in p.unsafe) {
      var d :| d in defs && d.name == n;
      assert d in Filtered(p, defs);
    }
  }

  // With hints it also has hinted registered tools, and nothing else.
  lemma SelectionFrom(tools: map<string, ToolDef>, selected: Option<seq<ToolDef>>, hints: seq<string>, maxTools: int,
                      discovery: seq<string>, p: Profile, out: seq<ToolDef>, d: ToolDef)
    requires Filed(tools) && Selection(tools, selected, hints, maxTools, discovery, p, out) && d in out
    ensures if d.name in tools && d == tools[d.name] then
              selected.None? || d in selected.value || d.name in hints || d.name in discovery
            else selected.Some? && d in selected.value
  {
    var base :| && (if selected.Some? then base == selected.value else Lists(base, tools))
                && out == Filtered(p, Discovered(tools, WithHints(tools, hints, base, maxTools), discovery));
    var hinted := WithHints(tools, hints, base, maxTools);
    WithHintsFrom(tools, hints, base, maxTools);
    DiscoveredShape(tools, hinted, discovery);
    SafeMembers(p.unsafe, Discovered(tools, hinted, discovery));
  }

  // selectTools
  method SelectTools(registry: ToolRegistry, selected: Option<seq<ToolDef>>, hints: seq<string>, maxTools: int,
                     discovery: seq<string>, p: Profile)
    returns (out: seq<ToolDef>)
    requires registry.Valid()
    ensures Selection(registry.tools, selected, hints, maxTools, discovery, p, out)
  {
    var base;
    if selected.Some? {
      base := selected.value;
    } else {
      base := registry.Definitions();
    }
    var hinted := MergeLocalIntelToolHints(registry, hints, base, maxTools);
    var target := AddDiscovery(registry, hinted, discovery);
    out := FilterTools(p, target);
  }

  lemma HintsKeepNoDup(tools: map<string, ToolDef>, hints: seq<string>, base: seq<ToolDef>, maxTools: int)
    requires Filed(tools)
    ensures hints != [] || NoDup(base) ==> NoDup(WithHints(tools, hints, base, maxTools))
  {
    if hints != [] {
      var hinted := HintsThenOthers(tools, hints, base, maxTools);
    }
  }

  // A tool named in the history is offered again: some resolution of its name is
  // unregistered, or is on the list.
  ghost predicate Served(tools: map<string, ToolDef>, offered: set<string>, call: ToolCall) {
    exists r :: ResolvesTo(tools, Text.TrimSpace(call.name), r) && (r != "" && r in tools ==> r in offered)
  }

  ghost predicate ComesFrom(tools: map<string, ToolDef>, calls: seq<ToolCall>, d: ToolDef) {
    d.name != "" && d.name in tools && d == tools[d.name] && CalledFor(tools, calls, d.name)
  }

  // Some call's name may resolve to n.
  ghost predicate CalledFor(tools: map<string, ToolDef>, calls: seq<ToolCall>, n: string) {
    exists c :: c in calls && ResolvesTo(tools, Text.TrimSpace(c.name), n)
  }

  // The tool calls of a conversation, in order.
  function HistoryCalls(msgs: seq<Message>): seq<ToolCall>
    decreases |msgs|
  {
    if msgs == [] then []
    else
      HistoryCalls(msgs[..|msgs| - 1]) + if msgs[|msgs| - 1].Assistant? then msgs[|msgs| - 1].calls else []
  }

  // Those of all assistant messages.
  lemma {:induction false} HistoryIs(msgs: seq<Message>, c: ToolCall)
    ensures c in HistoryCalls(msgs) <==> exists m :: m in msgs && m.Assistant? && c in m.calls
    decreases |msgs|
  {
    if msgs != [] {
      var front, last := msgs[..|msgs| - 1], msgs[|msgs| - 1];
      HistoryIs(front, c);
      assert forall m :: m in msgs <==> m in front || m == last;
    }
  }

  // What adding for some calls guarantees.
  ghost predicate Extends(tools: map<string, ToolDef>, selected: seq<ToolDef>, calls: seq<ToolCall>,
                          out: seq<ToolDef>) {
    && selected <= out && (NoDup(selected) ==> NoDup(out))
    && (forall c :: c in calls ==> Served(tools, Names(out), c))
    && (forall k :: |selected| <= k < |out| ==> ComesFrom(tools, calls, out[k]))
  }

  // The inner loop: the calls of one message.
  method AddCalls(registry: ToolRegistry, have: set<string>, ghost selected: seq<ToolDef>, ghost earlier: seq<ToolCall>,
                  before: seq<ToolDef>, calls: seq<ToolCall>)
    returns (have': set<string>, out: seq<ToolDef>)
    requires registry.Valid() && have == Names(before)
    requires Extends(registry.tools, selected, earlier, before)
    ensures have' == Names(out) && Extends(registry.tools, selected, earlier + calls, out)
  {
    have', out := have, before;
    assert earlier + calls[..0] == earlier;
    for i := 0 to |calls|
      invariant have' == Names(out)
      invariant Extends(registry.tools, selected, earlier + calls[..i], out)
    {
      var name := registry.Resolve(Text.TrimSpace(calls[i].name));
      ghost var o := out;
      if name != "" && name !in have' && name in registry.tools {
        have', out := Add(have', out, registry.tools[name]);
      }
      assert earlier + calls[..i + 1] == earlier + calls[..i] + [calls[i]];
      ExtendOne(registry.tools, selected, earlier + calls[..i], o, calls[i], name, out);
    }
    assert calls[..|calls|] == calls;
  }

  lemma ExtendOne(tools: map<string, ToolDef>, selected: seq<ToolDef>, earlier: seq<ToolCall>, before: seq<ToolDef>,
                  call: ToolCall, name: string, out: seq<ToolDef>)
    requires Filed(tools) && Extends(tools, selected, earlier, before)
            && ResolvesTo(tools, Text.TrimSpace(call.name), name)
    requires out == if name != "" && name !in Names(before) && name in tools then before + [tools[name]] else before
    ensures Extends(tools, selected, earlier + [call], out)
  {
    if out != before {
      NamesOfConcat(before, [tools[name]]);
      assert tools[name].name in Names([tools[name]]);
      assert forall k :: 0 <= k < |before| ==> before[k] in before;
    }
    assert Served(tools, Names(out), call);
    forall c | c in earlier + [call] ensures Served(tools, Names(out), c) {
      if c != call {
        assert Served(tools, Names(before), c);
      }
    }
    forall k | |selected| <= k < |out| ensures ComesFrom(tools, earlier + [call], out[k]) {
      if k < |before| {
        assert ComesFrom(tools, earlier, before[k]);
        var c :| c in earlier && ResolvesTo(tools, Text.TrimSpace(c.name), out[k].name);
        assert c in earlier + [call];
      } else {
        assert call in earlier + [call];
      }
    }
  }

  // mergeToolsNeededForHistory
  method MergeToolsNeededForHistory(registry: ToolRegistry, msgs: seq<Message>, selected: seq<ToolDef>)
    returns (out: seq<ToolDef>)
    requires registry.Valid()
    ensures Extends(registry.tools, selected, HistoryCalls(msgs), out)
  {
    var have := NameSet(selected);
    out := selected;
    for i := 0 to |msgs|
      invariant have == Names(out)
      invariant Extends(registry.tools, selected, HistoryCalls(msgs[..i]), out)
    {
      assert msgs[..i + 1][..i] == msgs[..i];
      if msgs[i].Assistant? {
        have, out := AddCalls(registry, have, selected, HistoryCalls(msgs[..i]), out, msgs[i].calls);
      } else {
        assert HistoryCalls(msgs[..i]) + [] == HistoryCalls(msgs[..i]);
      }
    }
    assert msgs[..|msgs|] == msgs;
  }

  // The name resolves to one tool on every scan order.
  ghost predicate Unambiguous(tools: map<string, ToolDef>, name: string) {
    name == "" || name in tools
    || forall m, n :: m in tools && n in tools && Normalize(m) == Normalize(n) == Normalize(name) ==> m == n
  }

  // A call whose name resolves to one registered tool puts that tool on the list.
  lemma HistoryServes(tools: map<string, ToolDef>, chosen: seq<ToolDef>, calls: seq<ToolCall>, out: seq<ToolDef>,
                      call: ToolCall, n: string)
    requires Extends(tools, chosen, calls, out) && call in calls && n != "" && n in tools
    requires ResolvesTo(tools, Text.TrimSpace(call.name), n) && Unambiguous(tools, Text.TrimSpace(call.name))
    ensures n in Names(out)
  {
    ResolveDeterministic(tools, Text.TrimSpace(call.name));
    assert Served(tools, Names(out), call);
  }

  // Of the registered tools that were not chosen, exactly those that a call of the history
  // resolves to are on the list.
  lemma HistoryIff(tools: map<string, ToolDef>, chosen: seq<ToolDef>, calls: seq<ToolCall>, out: seq<ToolDef>,
                   n: string)
    requires Extends(tools, chosen, calls, out) && n in tools && n !in Names(chosen)
    requires forall c :: c in calls ==> Unambiguous(tools, Text.TrimSpace(c.name))
    ensures n in Names(out) <==> n != "" && CalledFor(tools, calls, n)
  {
    if n in Names(out) {
      var d :| d in out && d.name == n;
      var k :| 0 <= k < |out| && out[k] == d;
      assert forall i :: 0 <= i < |chosen| ==> out[i] in chosen;
      assert ComesFrom(tools, calls, out[k]);
    }
    if n != "" && CalledFor(tools, calls, n) {
      var c :| c in calls && ResolvesTo(tools, Text.TrimSpace(c.name), n);
      HistoryServes(tools, chosen, calls, out, c, n);
    }
  }

  // The coding profile does not keep its exclusions out of a request: with a call of that
  // name in the history, the tool is not chosen, and yet on the list.
  lemma ExcludedReturns(tools: map<string, ToolDef>, selected: Option<seq<ToolDef>>, hints: seq<string>, maxTools: int,
                        chosen: seq<ToolDef>, calls: seq<ToolCall>, out: seq<ToolDef>, call: ToolCall, n: string)
    requires Filed(tools) && Selection(tools, selected, hints, maxTools, DISCOVERY, Profile(true, UNSAFE), chosen)
    requires Extends(tools, chosen, calls, out)
    requires n in ["browser_navigate", "browser_screenshot", "web_search", "web_fetch", "message", "cron",
                   "image_understand"]
    requires n in tools && call in calls && Text.TrimSpace(call.name) == n
    ensures n !in Names(chosen) && n in Names(out)
  {
    SelectionShape(tools, selected, hints, maxTools, DISCOVERY, Profile(true, UNSAFE), chosen);
    HistoryServes(tools, chosen, calls, out, call, n);
  }

  // buildRequestV3's tool list: the selection, and behind it what the history needs.
  // Unless the catalog repeats a name none occurs twice, every registered discovery tool
  // that the profile allows is there, every registered tool of the history is there, and
  // a tool the profile excludes is there exactly if the history calls for it.
  method RequestTools(registry: ToolRegistry, selected: Option<seq<ToolDef>>, hints: seq<string>, maxTools: int,
                      discovery: seq<string>, p: Profile, msgs: seq<Message>)
    returns (tools: seq<ToolDef>)
    requires registry.Valid()
    ensures Offered(registry.tools, false, selected, hints, maxTools, discovery, p, HistoryCalls(msgs), tools)
    ensures hints != [] || selected.None? || NoDup(selected.value) ==> NoDup(tools)
    ensures forall n :: n in discovery && n in registry.tools && n !in p.unsafe ==> n in Names(tools)
    ensures forall c :: c in HistoryCalls(msgs) ==> Served(registry.tools, Names(tools), c)
    ensures p.coding ==> forall d :: d in tools && d.name in p.unsafe ==>
            ComesFrom(registry.tools, HistoryCalls(msgs), d)
    ensures p.coding ==>
              (forall c :: c in HistoryCalls(msgs) ==> Unambiguous(registry.tools, Text.TrimSpace(c.name))) ==>
              forall n :: n in p.unsafe && n in registry.tools ==>
                (n in Names(tools) <==> n != "" && CalledFor(registry.tools, HistoryCalls(msgs), n))
  {
    var chosen := SelectTools(registry, selected, hints, maxTools, discovery, p);
    SelectionShape(registry.tools, selected, hints, maxTools, discovery, p, chosen);
    var base := FilterTools(p, chosen);
    if p.coding {
      SafeAlready(p.unsafe, chosen);
    }
    tools := MergeToolsNeededForHistory(registry, msgs, base);
    assert forall k :: 0 <= k < |base| ==> tools[k] in base;
    forall n | n in Names(base) ensures n in Names(tools) {
      var d :| d in base && d.name == n;
      assert d in tools;
    }
    if p.coding && forall c :: c in HistoryCalls(msgs) ==> Unambiguous(registry.tools, Text.TrimSpace(c.name)) {
      HistoryDecides(registry.tools, base, HistoryCalls(msgs), tools, p.unsafe);
    }
  }

  lemma HistoryDecides(tools: map<string, ToolDef>, chosen: seq<ToolDef>, calls: seq<ToolCall>, out: seq<ToolDef>,
                       unsafe: set<string>)
    requires Extends(tools, chosen, calls, out) && forall d :: d in chosen ==> d.name !in unsafe
    requires forall c :: c in calls ==> Unambiguous(tools, Text.TrimSpace(c.name))
    ensures forall n :: n in unsafe && n in tools ==> (n in Names(out) <==> n != "" && CalledFor(tools, calls, n))
  {
    forall n | n in unsafe && n in tools ensures n in Names(out) <==> n != "" && CalledFor(tools, calls, n) {
      HistoryIff(tools, chosen, calls, out, n);
    }
  }

  // ------------------------------------------------------------------
  // Any request
  // ------------------------------------------------------------------

  // buildRequest's tool list, for memory flushes: every registered tool, unfiltered.
  method FlushTools(registry: ToolRegistry) returns (tools: seq<ToolDef>)
    requires registry.Valid()
    ensures Lists(tools, registry.tools)
  {
    tools := registry.Definitions();
  }

  // The tool list of a request: of a memory flush, or of an iteration.
  ghost predicate Offered(tools: map<string, ToolDef>, flush: bool, selected: Option<seq<ToolDef>>, hints: seq<string>,
                          maxTools: int, discovery: seq<string>, p: Profile, calls: seq<ToolCall>, out: seq<ToolDef>) {
    if flush then Lists(out, tools)
    else exists chosen :: && Selection(tools, selected, hints, maxTools, discovery, p, chosen)
                          && Extends(tools, chosen, calls, out)
  }

  lemma NotChosen(tools: map<string, ToolDef>, selected: Option<seq<ToolDef>>, hints: seq<string>, maxTools: int,
                  discovery: seq<string>, p: Profile, chosen: seq<ToolDef>, n: string)
    requires Filed(tools) && Selection(tools, selected, hints, maxTools, discovery, p, chosen)
    requires p.coding && n in p.unsafe
    ensures n !in Names(chosen)
  {
    SelectionShape(tools, selected, hints, maxTools, discovery, p, chosen);
  }

  // Under the coding profile a request has an excluded tool exactly if the tool is
  // registered and the request is a flush, or a call of the history resolves to it.
  lemma ExcludedIff(tools: map<string, ToolDef>, flush: bool, selected: Option<seq<ToolDef>>, hints: seq<string>,
                    maxTools: int, discovery: seq<string>, p: Profile, calls: seq<ToolCall>, out: seq<ToolDef>,
                    n: string)
    requires Filed(tools) && p.coding && n in p.unsafe
    requires Offered(tools, flush, selected, hints, maxTools, discovery, p, calls, out)
    requires flush || forall c :: c in calls ==> Unambiguous(tools, Text.TrimSpace(c.name))
    ensures n in Names(out) <==> n in tools && (flush || (n != "" && CalledFor(tools, calls, n)))
  {
    if flush {
      ListsAll(tools, out, n);
    } else {
      var chosen :| && Selection(tools, selected, hints, maxTools, discovery, p, chosen)
                    && Extends(tools, chosen, calls, out);
      NotChosen(tools, selected, hints, maxTools, discovery, p, chosen, n);
      if n in tools {
        HistoryIff(tools, chosen, calls, out, n);
      }
    }
  }

  lemma ListsAll(tools: map<string, ToolDef>, out: seq<ToolDef>, n: string)
    requires Lists(out, tools)
    ensures n in Names(out) <==> n in tools
  {
    if n in tools {
      var i :| 0 <= i < |out| && out[i].name == n;
      assert out[i] in out;
    }
  }
}
