// internal/agent/tool_name_resolve.go and the ToolRegistry of runner.go: tool
// names, the aliases a provider derives from them, and the way back.
module ToolNames {
  import opened Provider

  // ------------------------------------------------------------------
  // Normal forms
  // ------------------------------------------------------------------

  predicate Kept(c: char) {
    'a' <= c <= 'z' || 'A' <= c <= 'Z' || '0' <= c <= '9' || c == '_' || c == '-'
  }

  predicate IsEdge(c: char) { c == '_' || c == '-' }

  function MapRunes(name: string): (r: string)
    ensures |r| == |name|
    ensures forall i :: 0 <= i < |r| ==> r[i] == if Kept(name[i]) then name[i] else '_'
  {
    seq(|name|, i requires 0 <= i < |name| => if Kept(name[i]) then name[i] else '_')
  }

  // strings.Trim(s, "_-")
  function TrimEdges(s: string): string
    decreases |s|
  {
    if s == [] then s
    else if IsEdge(s[0]) then TrimEdges(s[1..])
    else if IsEdge(s[|s| - 1]) then TrimEdges(s[..|s| - 1])
    else s
  }

  function Normalize(name: string): string {
    var s := TrimEdges(MapRunes(name));
    if s == [] then "tool" else s
  }

  // What a normalized name looks like.
  predicate IsNormal(s: string) {
    && s != []
    && (forall i :: 0 <= i < |s| ==> Kept(s[i]))
    && !IsEdge(s[0]) && !IsEdge(s[|s| - 1])
  }

  method NormalizeToolNameLikeBedrock(name: string) returns (r: string)
    ensures r == Normalize(name)
  {
    var b: string := [];
    for i := 0 to |name|
      invariant b == MapRunes(name)[..i]
    {
      b := b + [if Kept(name[i]) then name[i] else '_'];
    }
    assert b == MapRunes(name);
    var s := TrimEdges(b);
    r := if s == [] then "tool" else s;
  }

  lemma {:induction false} TrimEdgesShape(s: string)
    requires forall i :: 0 <= i < |s| ==> Kept(s[i])
    ensures TrimEdges(s) == [] || IsNormal(TrimEdges(s))
    decreases |s|
  {
    if s == [] {
    } else if IsEdge(s[0]) {
      TrimEdgesShape(s[1..]);
    } else if IsEdge(s[|s| - 1]) {
      TrimEdgesShape(s[..|s| - 1]);
    }
  }

  lemma {:induction false} TrimEdgesIs(s: string) returns (i: nat, j: nat)
    ensures i <= j <= |s| && TrimEdges(s) == s[i..j]
    ensures forall k :: 0 <= k < i || j <= k < |s| ==> s[k] == '_' || s[k] == '-'
    ensures i < j ==> s[i] != '_' && s[i] != '-' && s[j - 1] != '_' && s[j - 1] != '-'
    decreases |s|
  {
    if s == [] {
      i, j := 0, 0;
    } else if IsEdge(s[0]) {
      i, j := TrimEdgesIs(s[1..]);
      i, j := i + 1, j + 1;
      assert forall k :: 0 < k < |s| ==> s[k] == s[1..][k - 1];
    } else if IsEdge(s[|s| - 1]) {
      i, j := TrimEdgesIs(s[..|s| - 1]);
    } else {
      i, j := 0, |s|;
    }
  }

  // The name with '_' for every character but letters, digits, '_' and '-', without the
  // '_' and '-' at its ends; "tool" if nothing else is there.
  lemma NormalizeIs(name: string) returns (m: string, i: nat, j: nat)
    ensures |m| == |name|
    ensures forall k :: 0 <= k < |m| ==>
              m[k] == if 'a' <= name[k] <= 'z' || 'A' <= name[k] <= 'Z' || '0' <= name[k] <= '9' || name[k] == '-'
                      then name[k] else '_'
    ensures i <= j <= |m| && Normalize(name) == if i < j then m[i..j] else "tool"
    ensures forall k :: 0 <= k < i || j <= k < |m| ==> m[k] == '_' || m[k] == '-'
    ensures i < j ==> m[i] != '_' && m[i] != '-' && m[j - 1] != '_' && m[j - 1] != '-'
  {
    m := MapRunes(name);
    i, j := TrimEdgesIs(m);
  }

  // Normalization lands in [A-Za-z0-9_-]+ without an edge of '_' or '-', and its
  // fixed points are exactly the names of that form.
  lemma NormalForm(name: string)
    ensures IsNormal(Normalize(name))
    ensures Normalize(name) == name <==> IsNormal(name)
  {
    TrimEdgesShape(MapRunes(name));
    if IsNormal(name) {
      assert MapRunes(name) == name;
    }
  }

  lemma NormalizeIdempotent(name: string)
    ensures Normalize(Normalize(name)) == Normalize(name)
  {
    NormalForm(name);
    NormalForm(Normalize(name));
  }

  // ------------------------------------------------------------------
  // Registry
  // ------------------------------------------------------------------

  // Every tool is filed under its own name.
  predicate Filed(tools: map<string, ToolDef>) { forall n :: n in tools ==> tools[n].name == n }

  // The definitions of all registered tools, each once, in some order.
  ghost predicate Lists(defs: seq<ToolDef>, tools: map<string, ToolDef>) {
    && (forall i :: 0 <= i < |defs| ==> defs[i].name in tools && tools[defs[i].name] == defs[i])
    && (forall n :: n in tools ==> exists i :: 0 <= i < |defs| && defs[i].name == n)
    && (forall i, j :: 0 <= i < j < |defs| ==> defs[i].name != defs[j].name)
  }

  class ToolRegistry {
    var tools: map<string, ToolDef>

    ghost predicate Valid()
      reads this
    {
      Filed(tools)
    }

    constructor ()
      ensures Valid() && tools == map[]
    {
      tools := map[];
    }

    method Register(t: ToolDef)
      requires Valid()
      modifies this
      ensures Valid() && tools == old(tools)[t.name := t]
    {
      tools := tools[t.name := t];
    }

    // Go ranges over a map in any order.
    method Definitions() returns (defs: seq<ToolDef>)
      requires Valid()
      ensures Lists(defs, tools)
    {
      defs := [];
      var todo := tools.Keys;
      while todo != {}
        invariant todo <= tools.Keys
        invariant forall i :: 0 <= i < |defs| ==>
                    defs[i].name in tools && tools[defs[i].name] == defs[i] && defs[i].name !in todo
        invariant forall n :: n in tools ==> n in todo || exists i :: 0 <= i < |defs| && defs[i].name == n
        invariant forall i, j :: 0 <= i < j < |defs| ==> defs[i].name != defs[j].name
        decreases todo
      {
        var n :| n in todo;
        ghost var before := defs;
        defs := defs + [tools[n]];
        todo := todo - {n};
        assert defs[|before|].name == n;
        assert forall i :: 0 <= i < |before| ==> defs[i] == before[i];
      }
    }

    method CloneWithout(omit: set<string>) returns (clone: ToolRegistry)
      requires Valid()
      ensures fresh(clone) && clone.Valid()
      ensures clone.tools == map n | n in tools && n !in omit :: tools[n]
    {
      clone := new ToolRegistry();
      var defs := Definitions();
      for i := 0 to |defs|
        invariant fresh(clone) && clone.Valid()
        invariant forall n :: n in clone.tools <==> n !in omit && exists j :: 0 <= j < i && defs[j].name == n
        invariant forall n :: n in clone.tools ==> n in tools && clone.tools[n] == tools[n]
      {
        if defs[i].name !in omit {
          clone.Register(defs[i]);
        }
      }
    }

    // resolveCatalogToolName
    method Resolve(name: string) returns (r: string)
      requires Valid()
      ensures ResolvesTo(tools, name, r)
    {
      if name == "" || name in tools {
        return name;
      }
      var target := NormalizeToolNameLikeBedrock(name);
      var defs := Definitions();
      for i := 0 to |defs|
        invariant forall j :: 0 <= j < i ==> Normalize(defs[j].name) != target
      {
        var n := NormalizeToolNameLikeBedrock(defs[i].name);
        if n == target {
          return defs[i].name;
        }
      }
      return name;
    }

    // normalizeToolCallNames rewrites the slice in place.
    method NormalizeToolCallNames(parts: array<ToolCall>)
      requires Valid()
      modifies parts
      ensures forall i :: 0 <= i < parts.Length ==> Renamed(tools, old(parts[i]), parts[i])
    {
      for i := 0 to parts.Length
        invariant forall j :: 0 <= j < i ==> Renamed(tools, old(parts[j]), parts[j])
        invariant forall j :: i <= j < parts.Length ==> parts[j] == old(parts[j])
      {
        if parts[i].name != "" {
          var r := Resolve(parts[i].name);
          parts[i] := parts[i].(name := r);
        }
      }
    }
  }

  // ------------------------------------------------------------------
  // Resolution
  // ------------------------------------------------------------------

  ghost predicate HasAlias(tools: map<string, ToolDef>, alias: string) {
    exists n :: n in tools && Normalize(n) == Normalize(alias)
  }

  // r is a possible answer for name. Several answers are possible when registered
  // names share a normal form, since the scan follows the map's random order.
  ghost predicate ResolvesTo(tools: map<string, ToolDef>, name: string, r: string) {
    if name == "" || name in tools || !HasAlias(tools, name) then r == name
    else r in tools && Normalize(r) == Normalize(name)
  }

  // A call after renaming: only the name may have changed, to a resolution of it.
  ghost predicate Renamed(tools: map<string, ToolDef>, call: ToolCall, call': ToolCall) {
    ResolvesTo(tools, call.name, call'.name) && call' == call.(name := call'.name)
  }

  // Resolving twice is resolving once, whatever order each scan takes.
  lemma ResolveIdempotent(tools: map<string, ToolDef>, name: string, r: string, again: string)
    requires ResolvesTo(tools, name, r) && ResolvesTo(tools, r, again)
    ensures again == r
  {
  }

  // The alias of a registered name leads back to that name, on every scan order,
  // exactly when the alias is the name itself, or is not registered and no other
  // registered name has the same normal form.
  lemma AliasRoundTrip(tools: map<string, ToolDef>, name: string)
    requires name in tools
    ensures (forall r :: ResolvesTo(tools, Normalize(name), r) ==> r == name)
            <==> (Normalize(name) == name
                  || (Normalize(name) !in tools
                      && forall n :: n in tools && Normalize(n) == Normalize(name) ==> n == name))
  {
    var alias := Normalize(name);
    NormalForm(name);
    NormalizeIdempotent(name);
    assert HasAlias(tools, alias);
    if n :| n in tools && Normalize(n) == alias && n != name && alias !in tools {
      assert ResolvesTo(tools, alias, n);
    }
    if alias in tools {
      assert ResolvesTo(tools, alias, alias);
    }
  }

  // The answer depends on the map order exactly for an unregistered name that two
  // registered names share a normal form with.
  lemma ResolveDeterministic(tools: map<string, ToolDef>, name: string)
    ensures (forall r, r' :: ResolvesTo(tools, name, r) && ResolvesTo(tools, name, r') ==> r == r')
            <==> (name == "" || name in tools
                  || forall m, n :: m in tools && n in tools ==>
                       Normalize(m) == Normalize(n) == Normalize(name) ==> m == n)
  {
    if m, n :| m in tools && n in tools && Normalize(m) == Normalize(n) == Normalize(name) && m != n
               && name != "" && name !in tools {
      assert HasAlias(tools, name);
      assert ResolvesTo(tools, name, m) && ResolvesTo(tools, name, n);
    }
  }
}
