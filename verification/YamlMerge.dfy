// cmd/opsintelligence/onboard_merge.go: overlaying a new configuration document
// on an old one without losing pasted credentials.
module YamlMerge {
  import opened Wrappers
  import Text

  // A parsed YAML node. Maps with other than string keys are outside the model.
  datatype Value =
    | Null
    | Str(s: string)
    | Bool(b: bool)
    | Int(i: int)
    | Float(repr: string)
    | List(items: seq<Value>)
    | Map(entries: map<string, Value>)

  type Doc = map<string, Value>

  // isBlankScalar
  predicate IsBlank(v: Value) { v.Null? || (v.Str? && Text.IsBlank(v.s)) }

  // Blank is null, or a text of nothing but space.
  lemma BlankIff(v: Value)
    ensures IsBlank(v) <==> v.Null? || (v.Str? && forall i :: 0 <= i < |v.s| ==> Text.IsSpace(v.s[i]))
  {
    if v.Str? {
      Text.BlankIffAllSpace(v.s);
    }
  }

  function Get(m: Doc, k: string): Option<Value> { if k in m then Some(m[k]) else None }

  function OrNull(v: Option<Value>): Value { if v.Some? then v.value else Null }

  // ------------------------------------------------------------------
  // The merge as a function
  // ------------------------------------------------------------------

  // mergeYAMLValues
  function Overlay(o: Value, n: Value): Value
    decreases n, 2
  {
    if n.Null? then o
    else if o.Map? && n.Map? then Map(OverlayMaps(o.entries, n.entries))
    else n
  }

  // mergeStringMapsRecursive
  function OverlayMaps(o: Doc, n: Doc): Doc
    decreases Map(n), 1
  {
    map k | k in o.Keys + n.Keys :: if k in n then Entry(Get(o, k), n[k]) else o[k]
  }

  // One new entry: a blank never replaces a value that is not blank.
  function Entry(o: Option<Value>, n: Value): Value
    decreases n, 3
  {
    if IsBlank(n) && o.Some? && !IsBlank(o.value) then o.value else Overlay(OrNull(o), n)
  }

  // An entry that may be absent on either side.
  function EntryOpt(o: Option<Value>, n: Option<Value>): Option<Value> {
    if n.None? then o else Some(Entry(o, n.value))
  }

  // mergeOpsIntelYAMLDocuments; `roots` are the top-level keys that are merged
  // recursively, every other new key replaces the old one.
  function Merge(roots: set<string>, o: Doc, n: Doc): Doc {
    map k | k in o.Keys + n.Keys ::
      if k !in n then o[k] else if k in roots then Overlay(OrNull(Get(o, k)), n[k]) else n[k]
  }

  // ------------------------------------------------------------------
  // The code
  // ------------------------------------------------------------------

  const MERGED_ROOTS: set<string> := {"agent", "webhooks", "providers", "devops", "gateway"}
  const REPLACED_ROOTS: set<string> := {"embeddings", "channels", "routing", "plano", "teams"}

  lemma RootsDisjoint()
    ensures MERGED_ROOTS !! REPLACED_ROOTS
  {
    forall k | k in MERGED_ROOTS ensures k !in REPLACED_ROOTS {
      assert "agent"[0] == 'a' && "webhooks"[0] == 'w' && "gateway"[0] == 'g' && "devops"[0] == 'd';
      assert |"providers"| == 9 && |"plano"| == 5;
      forall r | r in REPLACED_ROOTS ensures k != r {
        assert k[0] != r[0] || |k| != |r|;
      }
    }
  }

  method MergeYAMLValues(oldv: Value, newv: Value) returns (r: Value)
    ensures r == Overlay(oldv, newv)
    decreases newv, 1
  {
    if newv.Null? {
      return oldv;
    }
    if oldv.Map? && newv.Map? {
      var m := MergeStringMapsRecursive(oldv.entries, newv.entries);
      return Map(m);
    }
    return newv;
  }

  // Go ranges over the new map in any order.
  method MergeStringMapsRecursive(oldm: Doc, newm: Doc) returns (out: Doc)
    ensures out == OverlayMaps(oldm, newm)
    decreases Map(newm), 0
  {
    out := oldm;
    var todo := newm.Keys;
    while todo != {}
      invariant todo <= newm.Keys
      invariant out.Keys == oldm.Keys + (newm.Keys - todo)
      invariant forall k :: k in out ==>
                  out[k] == if k in newm && k !in todo then Entry(Get(oldm, k), newm[k]) else oldm[k]
      decreases todo
    {
      var k :| k in todo;
      var nv := newm[k];
      if !(IsBlank(nv) && k in out && !IsBlank(out[k])) {
        var merged := MergeYAMLValues(OrNull(Get(out, k)), nv);
        out := out[k := merged];
      }
      todo := todo - {k};
    }
  }

  method MergeOpsIntelYAMLDocuments(oldDoc: Doc, newDoc: Doc) returns (out: Doc)
    ensures out == Merge({"agent", "webhooks", "providers", "devops", "gateway"}, oldDoc, newDoc)
    ensures out.Keys == oldDoc.Keys + newDoc.Keys
  {
    out := oldDoc;
    var todo := newDoc.Keys;
    RootsDisjoint();
    while todo != {}
      invariant todo <= newDoc.Keys
      invariant out.Keys == oldDoc.Keys + (newDoc.Keys - todo)
      invariant forall k :: k in out ==>
                  out[k] == if k in newDoc && k !in todo then Merge(MERGED_ROOTS, oldDoc, newDoc)[k] else oldDoc[k]
      decreases todo
    {
      var k :| k in todo;
      if k in REPLACED_ROOTS {
        out := out[k := newDoc[k]];
      } else if k in MERGED_ROOTS {
        var merged := MergeYAMLValues(OrNull(Get(out, k)), newDoc[k]);
        out := out[k := merged];
      } else {
        out := out[k := newDoc[k]];
      }
      todo := todo - {k};
    }
  }

  // ------------------------------------------------------------------
  // Associativity
  // ------------------------------------------------------------------

  // Everything c says about the keys of a is final: overlaying c on a gives c.
  ghost predicate Covers(a: Doc, c: Doc)
    decreases Map(c), 0
  {
    forall k :: k in a ==> k in c && CoversEntry(a[k], c[k])
  }

  ghost predicate CoversEntry(x: Value, y: Value)
    decreases y, 1
  {
    if IsBlank(y) then IsBlank(x) && (y.Null? ==> x.Null?)
    else x.Map? && y.Map? ==> Covers(x.entries, y.entries)
  }

  // Merging in either order gives the same: there is no place where a map of a is
  // replaced by a scalar of b that a map of c replaces in turn, unless c covers what
  // a had there.
  ghost predicate Groupable(a: Value, b: Value, c: Value)
    decreases c, 1
  {
    a.Map? && !b.Null? && c.Map? ==>
      if b.Map? then GroupableMaps(a.entries, b.entries, c.entries) else Covers(a.entries, c.entries)
  }

  ghost predicate GroupableMaps(a: Doc, b: Doc, c: Doc)
    decreases Map(c), 0
  {
    forall k :: k in a && k in b && k in c ==>
      IsBlank(a[k]) || IsBlank(b[k]) || IsBlank(c[k]) || Groupable(a[k], b[k], c[k])
  }

  lemma EntryCases(o: Option<Value>, n: Value)
    ensures Entry(o, n) ==
            if IsBlank(n) && o.Some? && !IsBlank(o.value) then o.value
            else if n.Null? then OrNull(o)
            else if o.Some? && o.value.Map? && n.Map? then Map(OverlayMaps(o.value.entries, n.entries))
            else n
  {
    assert Entry(o, n) == if IsBlank(n) && o.Some? && !IsBlank(o.value) then o.value else Overlay(OrNull(o), n);
  }

  lemma {:induction false} CoversIff(a: Doc, c: Doc)
    ensures OverlayMaps(a, c) == c <==> Covers(a, c)
    decreases Map(c)
  {
    var m := OverlayMaps(a, c);
    forall k | k in a && k in c ensures m[k] == c[k] <==> CoversEntry(a[k], c[k]) {
      EntryCases(Some(a[k]), c[k]);
      if a[k].Map? && c[k].Map? {
        CoversIff(a[k].entries, c[k].entries);
      }
    }
    if Covers(a, c) {
      assert m.Keys == c.Keys;
      forall k | k in c ensures m[k] == c[k] {
        EntryCases(Get(a, k), c[k]);
      }
    } else {
      var k :| k in a && !(k in c && CoversEntry(a[k], c[k]));
      assert k in m;
    }
  }

  // Absence is neutral.
  lemma EntryNeutral(v: Option<Value>)
    ensures EntryOpt(None, v) == v && EntryOpt(v, None) == v
  {
    if v.Some? {
      EntryCases(None, v.value);
    }
  }

  lemma OverlayMapsGet(o: Doc, n: Doc, k: string)
    ensures Get(OverlayMaps(o, n), k) == EntryOpt(Get(o, k), Get(n, k))
  {
  }

  lemma {:induction false} EntryGroups(a: Value, b: Value, c: Value)
    ensures Entry(Some(Entry(Some(a), b)), c) == Entry(Some(a), Entry(Some(b), c))
            <==> IsBlank(a) || IsBlank(b) || IsBlank(c) || Groupable(a, b, c)
    decreases c, 2
  {
    OverlayGroups(a, b, c);
  }

  lemma {:induction false} OverlayGroups(a: Value, b: Value, c: Value)
    ensures Overlay(Overlay(a, b), c) == Overlay(a, Overlay(b, c)) <==> Groupable(a, b, c)
    decreases c, 1
  {
    if a.Map? && !b.Null? && c.Map? {
      if b.Map? {
        MapsGroup(a.entries, b.entries, c.entries);
      } else {
        CoversIff(a.entries, c.entries);
      }
    }
  }

  lemma {:induction false} MapsGroup(a: Doc, b: Doc, c: Doc)
    ensures OverlayMaps(OverlayMaps(a, b), c) == OverlayMaps(a, OverlayMaps(b, c)) <==> GroupableMaps(a, b, c)
    decreases Map(c), 0
  {
    var l, r := OverlayMaps(OverlayMaps(a, b), c), OverlayMaps(a, OverlayMaps(b, c));
    assert l.Keys == r.Keys;
    forall k | k in l
      ensures l[k] == r[k] <==>
              (k in a && k in b && k in c ==>
                 IsBlank(a[k]) || IsBlank(b[k]) || IsBlank(c[k]) || Groupable(a[k], b[k], c[k]))
    {
      OverlayMapsGet(OverlayMaps(a, b), c, k);
      OverlayMapsGet(a, OverlayMaps(b, c), k);
      OverlayMapsGet(a, b, k);
      OverlayMapsGet(b, c, k);
      EntryNeutral(Get(a, k));
      EntryNeutral(Get(b, k));
      EntryNeutral(Get(c, k));
      EntryNeutral(EntryOpt(Get(b, k), Get(c, k)));
      if k in a && k in b && k in c {
        EntryGroups(a[k], b[k], c[k]);
      }
    }
    if GroupableMaps(a, b, c) {
      assert l == r;
    } else {
      var k :| k in a && k in b && k in c
               && !(IsBlank(a[k]) || IsBlank(b[k]) || IsBlank(c[k]) || Groupable(a[k], b[k], c[k]));
      assert k in l && l[k] != r[k];
    }
  }

  ghost predicate GroupableDocs(roots: set<string>, a: Doc, b: Doc, c: Doc) {
    forall k :: k in roots && k in a && k in b && k in c ==> Groupable(a[k], b[k], c[k])
  }

  // One top-level key on both sides.
  function RootOpt(merged: bool, o: Option<Value>, n: Option<Value>): Option<Value> {
    if n.None? then o else if merged then Some(Overlay(OrNull(o), n.value)) else n
  }

  lemma MergeGet(roots: set<string>, o: Doc, n: Doc, k: string)
    ensures Get(Merge(roots, o, n), k) == RootOpt(k in roots, Get(o, k), Get(n, k))
  {
  }

  lemma RootGroups(merged: bool, a: Option<Value>, b: Option<Value>, c: Option<Value>)
    ensures RootOpt(merged, RootOpt(merged, a, b), c) == RootOpt(merged, a, RootOpt(merged, b, c))
            <==> (merged && a.Some? && b.Some? && c.Some? ==> Groupable(a.value, b.value, c.value))
  {
    OverlayGroups(OrNull(a), OrNull(b), OrNull(c));
  }

  // Merging documents is associative exactly for groupable triples.
  lemma MergeAssociative(roots: set<string>, a: Doc, b: Doc, c: Doc)
    ensures Merge(roots, Merge(roots, a, b), c) == Merge(roots, a, Merge(roots, b, c))
            <==> GroupableDocs(roots, a, b, c)
  {
    var l, r := Merge(roots, Merge(roots, a, b), c), Merge(roots, a, Merge(roots, b, c));
    forall k
      ensures Get(l, k) == Get(r, k) <==> (k in roots && k in a && k in b && k in c ==> Groupable(a[k], b[k], c[k]))
    {
      MergeGet(roots, Merge(roots, a, b), c, k);
      MergeGet(roots, a, b, k);
      MergeGet(roots, a, Merge(roots, b, c), k);
      MergeGet(roots, b, c, k);
      RootGroups(k in roots, Get(a, k), Get(b, k), Get(c, k));
    }
    if GroupableDocs(roots, a, b, c) {
      forall k ensures Get(l, k) == Get(r, k) {
      }
      SameGets(l, r);
    } else {
      var k :| k in roots && k in a && k in b && k in c && !Groupable(a[k], b[k], c[k]);
      assert Get(l, k) != Get(r, k);
    }
  }

  lemma SameGets(l: Doc, r: Doc)
    requires forall k :: Get(l, k) == Get(r, k)
    ensures l == r
  {
    forall k ensures k in l <==> k in r {
      assert Get(l, k) == Get(r, k);
    }
    forall k | k in l ensures l[k] == r[k] {
      assert Get(l, k) == Get(r, k);
    }
  }

  // No place where a map, a scalar that counts, and a map follow each other.
  ghost predicate NoClash(a: Value, b: Value, c: Value)
    decreases c
  {
    a.Map? && !b.Null? && c.Map? ==>
      b.Map? && forall k :: k in a.entries && k in b.entries && k in c.entries ==>
        IsBlank(b.entries[k]) || NoClash(a.entries[k], b.entries[k], c.entries[k])
  }

  lemma {:induction false} NoClashGroups(a: Value, b: Value, c: Value)
    requires NoClash(a, b, c)
    ensures Groupable(a, b, c)
    decreases c
  {
    if a.Map? && b.Map? && c.Map? {
      forall k | k in a.entries && k in b.entries && k in c.entries && !IsBlank(b.entries[k])
        ensures Groupable(a.entries[k], b.entries[k], c.entries[k])
      {
        NoClashGroups(a.entries[k], b.entries[k], c.entries[k]);
      }
    }
  }

  // So documents without such a place merge associatively.
  lemma NoClashDocs(roots: set<string>, a: Doc, b: Doc, c: Doc)
    requires forall k :: k in roots && k in a && k in b && k in c ==> NoClash(a[k], b[k], c[k])
    ensures Merge(roots, Merge(roots, a, b), c) == Merge(roots, a, Merge(roots, b, c))
  {
    forall k | k in roots && k in a && k in b && k in c ensures Groupable(a[k], b[k], c[k]) {
      NoClashGroups(a[k], b[k], c[k]);
    }
    MergeAssociative(roots, a, b, c);
  }

  // And a clash is real: wherever at a merged root a map is followed by a scalar, null
  // excepted, and then by a map, the two orders differ there unless the last map covers
  // the first.
  lemma ClashBreaks(roots: set<string>, root: string, a: Doc, b: Doc, c: Doc)
    requires root in roots && root in a && root in b && root in c
    requires a[root].Map? && !b[root].Map? && !b[root].Null? && c[root].Map?
    ensures Merge(roots, Merge(roots, a, b), c)[root] == Merge(roots, a, Merge(roots, b, c))[root]
            <==> Covers(a[root].entries, c[root].entries)
  {
    OverlayGroups(a[root], b[root], c[root]);
  }

  // For one, the smallest.
  lemma MergeNotAssociative(roots: set<string>, root: string, k: string, v: Value)
    requires root in roots
    ensures var a, b, c := map[root := Map(map[k := v])], map[root := Bool(true)], map[root := Map(map[])];
            Merge(roots, Merge(roots, a, b), c) != Merge(roots, a, Merge(roots, b, c))
  {
    var a, b, c := map[root := Map(map[k := v])], map[root := Bool(true)], map[root := Map(map[])];
    MergeAssociative(roots, a, b, c);
    assert k in a[root].entries;
    assert !Covers(a[root].entries, map[]);
  }

  // ------------------------------------------------------------------
  // Idempotence
  // ------------------------------------------------------------------

  lemma {:induction false} OverlaySelf(v: Value)
    ensures Overlay(v, v) == v
    decreases v
  {
    if v.Map? {
      var m := OverlayMaps(v.entries, v.entries);
      forall k | k in v.entries ensures m[k] == v.entries[k] {
        OverlaySelf(v.entries[k]);
        EntryCases(Some(v.entries[k]), v.entries[k]);
      }
      assert m == v.entries;
    }
  }

  lemma {:induction false} TwiceGroups(o: Value, n: Value)
    ensures Groupable(o, n, n)
    decreases n
  {
    if o.Map? && n.Map? {
      forall k | k in o.entries && k in n.entries ensures Groupable(o.entries[k], n.entries[k], n.entries[k]) {
        TwiceGroups(o.entries[k], n.entries[k]);
      }
    }
  }

  // Applying the same new document again changes nothing.
  lemma MergeIdempotent(roots: set<string>, o: Doc, n: Doc)
    ensures Merge(roots, Merge(roots, o, n), n) == Merge(roots, o, n)
  {
    var self := Merge(roots, n, n);
    forall k | k in n ensures self[k] == n[k] {
      OverlaySelf(n[k]);
    }
    assert self == n;
    forall k | k in o && k in n ensures Groupable(o[k], n[k], n[k]) {
      TwiceGroups(o[k], n[k]);
    }
    MergeAssociative(roots, o, n, n);
  }

  // ------------------------------------------------------------------
  // Lookup
  // ------------------------------------------------------------------

  type Path = seq<string>

  // The node at a non-empty path.
  function Lookup(m: Doc, p: Path): Option<Value>
    requires p != []
    decreases |p|
  {
    if p[0] !in m then None
    else if |p| == 1 then Some(m[p[0]])
    else if m[p[0]].Map? then Lookup(m[p[0]].entries, p[1..])
    else None
  }

  // The new map holds a non-blank scalar at a proper prefix of the path.
  predicate Blocked(n: Doc, p: Path)
    requires p != []
    decreases |p|
  {
    |p| > 1 && p[0] in n && if n[p[0]].Map? then Blocked(n[p[0]].entries, p[1..]) else !IsBlank(n[p[0]])
  }

  // What stands at a path of two merged maps: nothing below a scalar of the new
  // one, and otherwise the merge of what stands there in each.
  lemma {:induction false} LookupOverlay(o: Doc, n: Doc, p: Path)
    requires p != []
    ensures Lookup(OverlayMaps(o, n), p) ==
            if Blocked(n, p) then None else EntryOpt(Lookup(o, p), Lookup(n, p))
    decreases |p|
  {
    var m := OverlayMaps(o, n);
    OverlayMapsGet(o, n, p[0]);
    if p[0] in n {
      EntryCases(Get(o, p[0]), n[p[0]]);
      if |p| > 1 && n[p[0]].Map? {
        if p[0] in o && o[p[0]].Map? {
          LookupOverlay(o[p[0]].entries, n[p[0]].entries, p[1..]);
        } else {
          BlockedIsEmpty(n[p[0]].entries, p[1..]);
          EntryNeutral(Lookup(n, p));
        }
      }
    }
  }

  lemma {:induction false} BlockedIsEmpty(n: Doc, p: Path)
    requires p != []
    ensures Blocked(n, p) ==> Lookup(n, p).None?
    decreases |p|
  {
    if Blocked(n, p) && n[p[0]].Map? {
      BlockedIsEmpty(n[p[0]].entries, p[1..]);
    }
  }

  // The same for documents: at a merged root even a blank string blocks.
  predicate BlockedDoc(n: Doc, p: Path)
    requires p != []
  {
    |p| > 1 && p[0] in n && if n[p[0]].Map? then Blocked(n[p[0]].entries, p[1..]) else !n[p[0]].Null?
  }

  lemma LookupMerge(roots: set<string>, o: Doc, n: Doc, p: Path)
    requires p != []
    ensures Lookup(Merge(roots, o, n), p) ==
            if p[0] !in roots then (if p[0] in n then Lookup(n, p) else Lookup(o, p))
            else if |p| == 1 then
              (if p[0] in n then Some(Overlay(OrNull(Get(o, p[0])), n[p[0]])) else Lookup(o, p))
            else if BlockedDoc(n, p) then None
            else EntryOpt(Lookup(o, p), Lookup(n, p))
  {
    if p[0] in roots && p[0] in n && |p| > 1 && n[p[0]].Map? {
      if p[0] in o && o[p[0]].Map? {
        LookupOverlay(o[p[0]].entries, n[p[0]].entries, p[1..]);
      } else {
        BlockedIsEmpty(n[p[0]].entries, p[1..]);
        EntryNeutral(Lookup(n, p));
      }
    }
  }

  // A value of the new document that is neither blank nor a map stands in the result.
  lemma NewValueStands(roots: set<string>, o: Doc, n: Doc, p: Path)
    requires p != [] && Lookup(n, p).Some? && !IsBlank(Lookup(n, p).value) && !Lookup(n, p).value.Map?
    ensures Lookup(Merge(roots, o, n), p) == Lookup(n, p)
  {
    LookupMerge(roots, o, n, p);
    if |p| > 1 && n[p[0]].Map? {
      BlockedIsEmpty(n[p[0]].entries, p[1..]);
      EntryCases(Lookup(o, p), Lookup(n, p).value);
    }
  }

  // A path is blocked exactly if a value above it is neither a map nor blank; at the root
  // of a document any but null blocks.
  lemma {:induction false} BlockedIff(n: Doc, p: Path)
    requires p != []
    ensures Blocked(n, p) <==> exists k :: 0 < k < |p| && Stops(Lookup(n, p[..k]))
    decreases |p|
  {
    if |p| > 1 && p[0] in n {
      assert Lookup(n, p[..1]) == Some(n[p[0]]);
      if n[p[0]].Map? {
        var m := n[p[0]].entries;
        BlockedIff(m, p[1..]);
        forall k | 1 < k < |p| ensures Lookup(n, p[..k]) == Lookup(m, p[1..][..k - 1]) {
          assert p[..k][1..] == p[1..][..k - 1];
        }
        if Blocked(m, p[1..]) {
          var k :| 0 < k < |p[1..]| && Stops(Lookup(m, p[1..][..k]));
          assert Stops(Lookup(n, p[..k + 1]));
        }
        if k :| 0 < k < |p| && Stops(Lookup(n, p[..k])) {
          assert k > 1;
          assert Stops(Lookup(m, p[1..][..k - 1]));
        }
      } else if k :| 0 < k < |p| && Stops(Lookup(n, p[..k])) {
        assert k == 1;
      }
    } else {
      assert forall k :: 0 < k < |p| ==> Lookup(n, p[..k]).None?;
    }
  }

  predicate Stops(v: Option<Value>) {
    v.Some? && !v.value.Map? && !v.value.Null? && !(v.value.Str? && Text.IsBlank(v.value.s))
  }

  lemma BlockedDocIff(n: Doc, p: Path)
    requires |p| > 1
    ensures BlockedDoc(n, p) <==>
            || (p[0] in n && !n[p[0]].Map? && !n[p[0]].Null?)
            || exists k :: 1 < k < |p| && Stops(Lookup(n, p[..k]))
  {
    if p[0] in n && n[p[0]].Map? {
      var m := n[p[0]].entries;
      BlockedIff(m, p[1..]);
      forall k | 1 < k < |p| ensures Lookup(n, p[..k]) == Lookup(m, p[1..][..k - 1]) {
        assert p[..k][1..] == p[1..][..k - 1];
      }
      if Blocked(m, p[1..]) {
        var k :| 0 < k < |p[1..]| && Stops(Lookup(m, p[1..][..k]));
        assert Stops(Lookup(n, p[..k + 1]));
      }
      if k :| 1 < k < |p| && Stops(Lookup(n, p[..k])) {
        assert Stops(Lookup(m, p[1..][..k - 1]));
      }
    } else {
      forall k | 1 < k < |p| ensures Lookup(n, p[..k]).None? {
      }
    }
  }

  // Blank never erases: what becomes of a value that is not blank, below a merged
  // root. It is lost only under a scalar of the new document, changed only by a
  // value there that is not blank, and kept as it is otherwise.
  lemma ValueSurvives(roots: set<string>, o: Doc, n: Doc, p: Path)
    requires |p| > 1 && p[0] in roots
    requires Lookup(o, p).Some? && !IsBlank(Lookup(o, p).value)
    ensures Lookup(Merge(roots, o, n), p) ==
            if BlockedDoc(n, p) then None
            else if Lookup(n, p).Some? && !IsBlank(Lookup(n, p).value) then
              Some(Overlay(Lookup(o, p).value, Lookup(n, p).value))
            else Lookup(o, p)
  {
    LookupMerge(roots, o, n, p);
  }

  // The roots by name: below these five a value that is not blank is kept where the new
  // document is silent or blank, and gives way where it is neither.
  lemma KeptRoots(o: Doc, n: Doc, p: Path)
    requires |p| > 1
    requires p[0] == "agent" || p[0] == "webhooks" || p[0] == "providers" || p[0] == "devops" || p[0] == "gateway"
    requires Lookup(o, p).Some? && !IsBlank(Lookup(o, p).value)
    ensures var r := Lookup(Merge(MERGED_ROOTS, o, n), p);
            && (!BlockedDoc(n, p) && (Lookup(n, p).None? || IsBlank(Lookup(n, p).value)) ==> r == Lookup(o, p))
            && (Lookup(n, p).Some? && !IsBlank(Lookup(n, p).value) && !Lookup(n, p).value.Map? ==> r == Lookup(n, p))
            && (BlockedDoc(n, p) ==> r.None?)
  {
    ValueSurvives(MERGED_ROOTS, o, n, p);
    if Lookup(n, p).Some? && !IsBlank(Lookup(n, p).value) && !Lookup(n, p).value.Map? {
      NewValueStands(MERGED_ROOTS, o, n, p);
    }
  }

  // Under any other root the new document's value replaces the old one, blank or not.
  lemma ReplacedRoots(o: Doc, n: Doc, k: string)
    requires k != "agent" && k != "webhooks" && k != "providers" && k != "devops" && k != "gateway"
    ensures k in n ==> Get(Merge(MERGED_ROOTS, o, n), k) == Some(n[k])
    ensures k !in n ==> Get(Merge(MERGED_ROOTS, o, n), k) == Get(o, k)
  {
  }

  // A key that the new document does not have stays, under any root.
  lemma SilentRoots(roots: set<string>, o: Doc, n: Doc, k: string)
    requires k !in n
    ensures Get(Merge(roots, o, n), k) == Get(o, k)
  {
  }
}
