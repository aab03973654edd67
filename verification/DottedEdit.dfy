// cmd/opsintelligence/main.go: the dashboard's edit of one dotted key, as a patch
// that goes through the configuration merge.
module DottedEdit {
  import opened Wrappers
  import opened YamlMerge
  import Text
  import Decimal

  // ------------------------------------------------------------------
  // Values
  // ------------------------------------------------------------------

  // strconv.ParseFloat(s, 64), whose grammar is not modelled.
  type FloatReader = string -> Option<string>

  // coerceYAMLScalar
  function Coerce(raw: string, parseFloat: FloatReader): Value {
    var r := Text.TrimSpace(raw);
    var lower := Text.ToLower(r);
    if r == "" then Str("")
    else if lower == "true" then Bool(true)
    else if lower == "false" then Bool(false)
    else if lower == "null" || lower == "~" then Null
    else if Decimal.ParseInt64(r).Some? then Int(Decimal.ParseInt64(r).value)
    else if parseFloat(r).Some? then Float(parseFloat(r).value)
    else Str(raw)
  }

  // What counts as giving no value: nothing, or one of the spellings of null.
  predicate GivesNothing(raw: string) {
    var r := Text.TrimSpace(raw);
    r == "" || Text.ToLower(r) == "null" || Text.ToLower(r) == "~"
  }

  lemma CoerceBlank(raw: string, parseFloat: FloatReader)
    ensures IsBlank(Coerce(raw, parseFloat)) <==> GivesNothing(raw)
    ensures !Coerce(raw, parseFloat).Map?
  {
    var lower := Text.ToLower(Text.TrimSpace(raw));
    assert |"true"| == 4 && |"false"| == 5 && |"null"| == 4 && |"~"| == 1;
    assert "true"[0] == 't' && "null"[0] == 'n';
    assert Text.IsBlank("");
  }

  // Which text becomes which value: first the truth values and null, in any case of their
  // letters, then integers of 64 bits, then floats; all else stays text, as it was given.
  lemma CoerceIs(raw: string, parseFloat: FloatReader)
    ensures var r, v := Text.TrimSpace(raw), Coerce(raw, parseFloat);
            && (Text.ToLower(r) == "true" ==> v == Bool(true))
            && (Text.ToLower(r) == "false" ==> v == Bool(false))
            && (Text.ToLower(r) == "null" || r == "~" ==> v == Null)
            && (r == "" ==> v == Str(""))
            && (v.Bool? ==> Text.ToLower(r) == "true" || Text.ToLower(r) == "false")
            && (v.Null? ==> Text.ToLower(r) == "null" || Text.ToLower(r) == "~")
            && (v.Int? ==> Decimal.ParseInt64(r) == Some(v.i))
            && (v.Float? ==> parseFloat(r) == Some(v.repr) && Decimal.ParseInt64(r).None?)
            && (v.Str? ==> v.s == raw || (r == "" && v.s == ""))
            && (v.Str? && r != "" ==> Decimal.ParseInt64(r).None? && parseFloat(r).None?)
  {
    assert |"true"| == 4 && |"false"| == 5 && |"null"| == 4 && |"~"| == 1;
    assert "true"[0] == 't' && "null"[0] == 'n' && "~"[0] == '~';
    assert Text.ToLower("~") == "~";
  }

  // A numeral is an integer.
  lemma CoerceNumeral(n: nat, parseFloat: FloatReader)
    requires n <= 0x7FFF_FFFF_FFFF_FFFF
    ensures Coerce(Decimal.Print(n), parseFloat) == Int(n)
    ensures Coerce(['-'] + Decimal.Print(n), parseFloat) == Int(0 - n)
  {
    var d := Decimal.Print(n);
    Decimal.PrintIsNumeral(n);
    Decimal.ParseSigned(n);
    NumeralPlain(d, d);
    NumeralPlain(['-'] + d, d);
  }

  lemma NumeralPlain(s: string, d: string)
    requires d != [] && Decimal.AllDigits(d) && (s == d || s == ['-'] + d)
    ensures Text.TrimSpace(s) == s && s != ""
    ensures Text.ToLower(s) != "true" && Text.ToLower(s) != "false"
    ensures Text.ToLower(s) != "null" && Text.ToLower(s) != "~"
  {
    assert Decimal.IsDigit(d[0]) && Decimal.IsDigit(d[|d| - 1]);
    assert s[|s| - 1] == d[|d| - 1] && (s[0] == '-' || s[0] == d[0]);
    assert Text.ToLower(s)[0] == s[0];
    assert "true"[0] == 't' && "false"[0] == 'f' && "null"[0] == 'n' && "~"[0] == '~';
  }

  // ------------------------------------------------------------------
  // Patches
  // ------------------------------------------------------------------

  // {p0: {p1: ... v}}
  function Nest(p: Path, v: Value): Value {
    if p == [] then v else Map(map[p[0] := Nest(p[1..], v)])
  }

  function Patch(p: Path, v: Value): Doc
    requires p != []
  {
    map[p[0] := Nest(p[1..], v)]
  }

  // buildSingleKeyYAMLPatch: the nested map, or an error for a path with a blank part.
  method BuildSingleKeyYAMLPatch(yamlPath: string, raw: string, parseFloat: FloatReader)
    returns (r: Result<Doc, string>)
    ensures var parts := Text.Split(yamlPath, '.');
            if exists i :: 0 <= i < |parts| && Text.IsBlank(parts[i]) then r.Err?
            else r == Ok(Patch(parts, Coerce(raw, parseFloat)))
  {
    var parts := Text.Split(yamlPath, '.');
    for i := 0 to |parts|
      invariant forall j :: 0 <= j < i ==> !Text.IsBlank(parts[j])
    {
      if Text.IsBlank(parts[i]) {
        return Err("invalid yaml path");
      }
    }
    var val := Coerce(raw, parseFloat);
    var node := val;
    assert parts[|parts|..] == [];
    for i := |parts| downto 0
      invariant node == Nest(parts[i..], val)
    {
      assert parts[i..][1..] == parts[i + 1..];
      node := Map(map[parts[i] := node]);
    }
    assert parts[0..] == parts;
    return Ok(node.entries);
  }

  // The editor: the patch merged into what the file holds. A file that is missing,
  // empty or not parseable is replaced by the patch alone.
  method EditConfig(file: Option<Doc>, yamlPath: string, value: string, parseFloat: FloatReader)
    returns (r: Result<Doc, string>)
    ensures var path := Text.TrimSpace(yamlPath);
            var parts := Text.Split(path, '.');
            if exists i :: 0 <= i < |parts| && Text.IsBlank(parts[i]) then r.Err?
            else
              var patch := Patch(parts, Coerce(Text.TrimSpace(value), parseFloat));
              r == Ok(if file.None? then patch
                      else Merge({"agent", "webhooks", "providers", "devops", "gateway"}, file.value, patch))
  {
    var path := Text.TrimSpace(yamlPath);
    if path == "" {
      assert Text.Split(path, '.')[0] == "";
      return Err("yaml path is empty");
    }
    var patch := BuildSingleKeyYAMLPatch(path, Text.TrimSpace(value), parseFloat);
    if patch.Err? || file.None? {
      return patch;
    }
    var merged := MergeOpsIntelYAMLDocuments(file.value, patch.value);
    return Ok(merged);
  }

  // ------------------------------------------------------------------
  // The edit as a lens
  // ------------------------------------------------------------------

  function Put(roots: set<string>, d: Doc, p: Path, v: Value): Doc
    requires p != []
  {
    Merge(roots, d, Patch(p, v))
  }

  predicate Diverges(p: Path, q: Path) { !(p <= q) && !(q <= p) }

  lemma {:induction false} PatchLookup(p: Path, v: Value, q: Path)
    requires p != [] && q != [] && !v.Map?
    ensures q == p ==> Lookup(Patch(p, v), q) == Some(v) && !Blocked(Patch(p, v), q)
    ensures Diverges(p, q) ==> Lookup(Patch(p, v), q).None? && !Blocked(Patch(p, v), q)
    decreases |p|
  {
    if q[0] == p[0] && |p| > 1 && |q| > 1 {
      PatchLookup(p[1..], v, q[1..]);
      assert p == [p[0]] + p[1..] && q == [q[0]] + q[1..];
    } else if q[0] == p[0] {
      assert |p| == 1 ==> p <= q;
      assert |q| == 1 ==> q <= p;
    }
  }

  // When an edit of a merged root reads back: the value given is not blank, or there
  // was nothing that a blank must not erase.
  predicate Takes(d: Doc, p: Path, v: Value)
    requires p != []
  {
    var o := Lookup(d, p);
    if |p| == 1 then !v.Null? || OrNull(o).Null?
    else !IsBlank(v) || o.None? || (IsBlank(o.value) && (v.Null? ==> o.value.Null?))
  }

  // What was put is what is read, exactly then.
  lemma PutGet(roots: set<string>, d: Doc, p: Path, v: Value)
    requires p != [] && p[0] in roots && !v.Map?
    ensures Lookup(Put(roots, d, p, v), p) == Some(v) <==> Takes(d, p, v)
  {
    PatchLookup(p, v, p);
    LookupMerge(roots, d, Patch(p, v), p);
    if |p| > 1 {
      assert Nest(p[1..], v).Map?;
      EntryCases(Lookup(d, p), v);
    }
  }

  // No other path changes.
  lemma PutFrame(roots: set<string>, d: Doc, p: Path, v: Value, q: Path)
    requires p != [] && p[0] in roots && !v.Map? && q != [] && Diverges(p, q)
    ensures Lookup(Put(roots, d, p, v), q) == Lookup(d, q)
  {
    PatchLookup(p, v, q);
    LookupMerge(roots, d, Patch(p, v), q);
    if q[0] == p[0] {
      assert |p| == 1 ==> p <= q;
      assert |q| == 1 ==> q <= p;
      assert Nest(p[1..], v).Map?;
    }
  }

  // Outside the merged roots the whole root is replaced instead.
  lemma PutReplaces(roots: set<string>, d: Doc, p: Path, v: Value)
    requires p != [] && p[0] !in roots
    ensures Put(roots, d, p, v) == d + Patch(p, v)
  {
  }

  // Putting back what is there changes nothing.
  lemma {:induction false} GetPutBelow(o: Value, p: Path, v: Value)
    requires if p == [] then o == v else o.Map? && Lookup(o.entries, p) == Some(v)
    ensures Overlay(o, Nest(p, v)) == o
    decreases |p|
  {
    if p == [] {
      OverlaySelf(v);
    } else {
      var child, rest := o.entries[p[0]], Nest(p[1..], v);
      GetPutBelow(child, p[1..], v);
      EntryCases(Some(child), rest);
      assert Entry(Some(child), rest) == child;
      assert OverlayMaps(o.entries, map[p[0] := rest]) == o.entries;
    }
  }

  lemma GetPut(roots: set<string>, d: Doc, p: Path, v: Value)
    requires p != [] && p[0] in roots && Lookup(d, p) == Some(v)
    ensures Put(roots, d, p, v) == d
  {
    GetPutBelow(d[p[0]], p[1..], v);
  }

  // Of two patches of a path the second stands, unless it is blank and the first is not.
  lemma {:induction false} PutPutBelow(p: Path, v: Value, w: Value)
    requires !v.Map? && !w.Map? && p != []
    ensures Overlay(Nest(p, v), Nest(p, w)) == Nest(p, Entry(Some(v), w))
    decreases |p|
  {
    var x, y := Nest(p[1..], v), Nest(p[1..], w);
    EntryCases(Some(x), y);
    if |p| > 1 {
      PutPutBelow(p[1..], v, w);
      assert Entry(Some(x), y) == Overlay(x, y);
    }
    EntryCases(Some(v), w);
    assert OverlayMaps(map[p[0] := x], map[p[0] := y]) == map[p[0] := Entry(Some(x), y)];
  }

  lemma {:induction false} NestsGroup(a: Value, p: Path, v: Value, w: Value)
    requires !v.Map? && !w.Map?
    ensures Groupable(a, Nest(p, v), Nest(p, w))
    decreases |p|
  {
    if p != [] && a.Map? && p[0] in a.entries {
      NestsGroup(a.entries[p[0]], p[1..], v, w);
    }
  }

  // Two edits in a row are one, of the value that the second makes of the first.
  lemma PutTwice(roots: set<string>, d: Doc, p: Path, v: Value, w: Value)
    requires p != [] && p[0] in roots && !v.Map? && !w.Map?
    ensures Put(roots, Put(roots, d, p, v), p, w) ==
            Put(roots, d, p, if |p| == 1 then Overlay(v, w) else Entry(Some(v), w))
  {
    var u := if |p| == 1 then Overlay(v, w) else Entry(Some(v), w);
    if |p| > 1 {
      PutPutBelow(p[1..], v, w);
    }
    assert Merge(roots, Patch(p, v), Patch(p, w)) == Patch(p, u);
    if p[0] in d {
      NestsGroup(d[p[0]], p[1..], v, w);
    }
    MergeAssociative(roots, d, Patch(p, v), Patch(p, w));
  }

  // An edit depends on its value only through what then stands at the path.
  lemma {:induction false} SameBelow(o: Doc, p: Path, v: Value, w: Value)
    requires p != [] && !v.Map? && !w.Map?
    requires Entry(Lookup(o, p), v) == Entry(Lookup(o, p), w)
    ensures OverlayMaps(o, Patch(p, v)) == OverlayMaps(o, Patch(p, w))
    decreases |p|
  {
    if |p| > 1 {
      var x, y := Nest(p[1..], v), Nest(p[1..], w);
      EntryCases(Get(o, p[0]), x);
      EntryCases(Get(o, p[0]), y);
      if p[0] in o && o[p[0]].Map? {
        SameBelow(o[p[0]].entries, p[1..], v, w);
      } else {
        EntryNeutral(Some(v));
        EntryNeutral(Some(w));
      }
    }
  }

  lemma SameEdit(roots: set<string>, d: Doc, p: Path, v: Value, w: Value)
    requires p != [] && p[0] in roots && !v.Map? && !w.Map?
    ensures |p| > 1 ==>
              (Put(roots, d, p, v) == Put(roots, d, p, w) <==> Entry(Lookup(d, p), v) == Entry(Lookup(d, p), w))
    ensures |p| == 1 ==>
              (Put(roots, d, p, v) == Put(roots, d, p, w)
               <==> Overlay(OrNull(Get(d, p[0])), v) == Overlay(OrNull(Get(d, p[0])), w))
  {
    PatchLookup(p, v, p);
    PatchLookup(p, w, p);
    LookupMerge(roots, d, Patch(p, v), p);
    LookupMerge(roots, d, Patch(p, w), p);
    if |p| > 1 && Entry(Lookup(d, p), v) == Entry(Lookup(d, p), w) {
      if p[0] in d && d[p[0]].Map? {
        SameBelow(d[p[0]].entries, p[1..], v, w);
      } else {
        EntryNeutral(Some(v));
        EntryNeutral(Some(w));
      }
    }
  }

  // When the last of two edits of a path wins: it is not blank, or the first one leaves
  // nothing behind that the second would have taken.
  predicate LastWins(d: Doc, p: Path, v: Value, w: Value)
    requires p != []
  {
    var o := Lookup(d, p);
    if |p| == 1 then !w.Null? || v.Null? || o == Some(v)
    else if !IsBlank(w) then true
    else if !IsBlank(v) then o == Some(v)
    else !w.Null? || v.Null? || o == Some(v) || (o.Some? && !IsBlank(o.value))
  }

  // The second edit makes the first one void exactly then.
  lemma PutPut(roots: set<string>, d: Doc, p: Path, v: Value, w: Value)
    requires p != [] && p[0] in roots && !v.Map? && !w.Map?
    ensures Put(roots, Put(roots, d, p, v), p, w) == Put(roots, d, p, w) <==> LastWins(d, p, v, w)
  {
    var o := Lookup(d, p);
    var u := if |p| == 1 then Overlay(v, w) else Entry(Some(v), w);
    PutTwice(roots, d, p, v, w);
    EntryCases(Some(v), w);
    EntryCases(o, u);
    EntryCases(o, w);
    SameEdit(roots, d, p, u, w);
  }

  // The laws for the five roots by name.
  lemma EditedRoots(d: Doc, p: Path, v: Value, q: Path)
    requires p != [] && q != [] && !v.Map?
    requires p[0] == "agent" || p[0] == "webhooks" || p[0] == "providers" || p[0] == "devops" || p[0] == "gateway"
    ensures !IsBlank(v) ==> Lookup(Put(MERGED_ROOTS, d, p, v), p) == Some(v)
    ensures !(p <= q) && !(q <= p) ==> Lookup(Put(MERGED_ROOTS, d, p, v), q) == Lookup(d, q)
  {
    PutGet(MERGED_ROOTS, d, p, v);
    if Diverges(p, q) {
      PutFrame(MERGED_ROOTS, d, p, v, q);
    }
  }
}
