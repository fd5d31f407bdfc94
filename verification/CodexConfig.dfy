/**
 * Merging the configuration handed to a Codex agent: nested objects are merged key by
 * key, later sources win, and network access is forced on at the end.
 */
module CodexConfig {
  import opened Prelude

  /** A JSON value; anything but an object is replaced whole and kept as its text. */
  datatype Value = Atom(text: string) | Object(fields: map<string, Value>)

  type Fields = map<string, Value>

  // ------------------------------------------------------------------------ merging

  /** `overlay` wins wherever not both sides have an object. */
  function Merge(base: Fields, overlay: Fields): Fields
    decreases Object(overlay)
  {
    map k | k in base.Keys + overlay.Keys ::
      if k !in overlay then base[k]
      else if k in base && base[k].Object? && overlay[k].Object?
        then Object(Merge(base[k].fields, overlay[k].fields))
      else overlay[k]
  }

  /** What a merge puts at a key of the overlay. */
  function Merged(base: Option<Value>, overlay: Value): Value {
    if base.Some? && base.value.Object? && overlay.Object? then Object(Merge(base.value.fields, overlay.fields))
    else overlay
  }

  function FieldOf(f: Fields, k: string): Option<Value> {
    if k in f then Some(f[k]) else None
  }

  lemma MergeKey(base: Fields, overlay: Fields, k: string)
    requires k in overlay
    ensures k in Merge(base, overlay) && Merge(base, overlay)[k] == Merged(FieldOf(base, k), overlay[k])
  {
  }

  /** Merges entry by entry; `merged` stands for the base, which the entries are written to. */
  method DeepMerge(base: Fields, overlay: Fields) returns (merged: Fields)
    ensures merged == Merge(base, overlay)
    decreases Object(overlay), 1
  {
    merged := base;
    var rest := overlay.Keys;
    while rest != {}
      invariant rest <= overlay.Keys && Partly(merged, base, overlay, rest)
      decreases |rest|
    {
      var k :| k in rest;
      var v := MergeEntry(FieldOf(merged, k), overlay, k);
      PartlyNext(merged, base, overlay, rest, k, v);
      merged := merged[k := v];
      rest := rest - {k};
    }
    PartlyDone(merged, base, overlay);
  }

  /** The entries of the overlay are merged except those of the keys in `rest`. */
  ghost predicate Partly(merged: Fields, base: Fields, overlay: Fields, rest: set<string>) {
    forall k :: FieldOf(merged, k) ==
      if k in overlay && k !in rest then Some(Merged(FieldOf(base, k), overlay[k])) else FieldOf(base, k)
  }

  lemma PartlyNext(merged: Fields, base: Fields, overlay: Fields, rest: set<string>, k: string, v: Value)
    requires Partly(merged, base, overlay, rest)
    requires k in rest && k in overlay && v == Merged(FieldOf(base, k), overlay[k])
    ensures Partly(merged[k := v], base, overlay, rest - {k})
  {
  }

  lemma PartlyDone(merged: Fields, base: Fields, overlay: Fields)
    requires Partly(merged, base, overlay, {})
    ensures merged == Merge(base, overlay)
  {
    var goal := Merge(base, overlay);
    forall k ensures FieldOf(merged, k) == FieldOf(goal, k) {
      if k in overlay {
        MergeKey(base, overlay, k);
      }
    }
    SameFields(merged, goal);
  }

  lemma SameFields(a: Fields, b: Fields)
    requires forall k :: FieldOf(a, k) == FieldOf(b, k)
    ensures a == b
  {
    assert forall k :: k in a ==> FieldOf(b, k) == Some(a[k]);
    assert forall k :: k in b ==> FieldOf(a, k) == Some(b[k]);
  }

  method MergeEntry(found: Option<Value>, overlay: Fields, k: string) returns (v: Value)
    requires k in overlay
    ensures v == Merged(found, overlay[k])
    decreases Object(overlay), 0
  {
    v := overlay[k];
    if found.Some? && found.value.Object? && v.Object? {
      var inner := DeepMerge(found.value.fields, v.fields);
      v := Object(inner);
    }
  }

  // -------------------------------------------------------------------------- paths

  type Path = seq<string>

  function At(v: Value, p: Path): Option<Value> {
    if p == [] then Some(v)
    else if v.Object? && p[0] in v.fields then At(v.fields[p[0]], p[1..])
    else None
  }

  /** Some ancestor on the path is not an object. */
  predicate Blocked(v: Value, p: Path) {
    p != [] && (v.Atom? || (p[0] in v.fields && Blocked(v.fields[p[0]], p[1..])))
  }

  /**
   * What a merge holds at any path: what the overlay has there, merged into the base's
   * object if both have one; nothing if the overlay replaced an ancestor; else what the
   * base has.
   */
  lemma {:induction false} MergeAt(base: Value, overlay: Value, p: Path)
    requires base.Object? && overlay.Object?
    ensures At(Object(Merge(base.fields, overlay.fields)), p) ==
      if At(overlay, p).Some? then Some(Merged(At(base, p), At(overlay, p).value))
      else if Blocked(overlay, p) then None
      else At(base, p)
    decreases p
  {
    if p != [] && p[0] in overlay.fields {
      var over := overlay.fields[p[0]];
      if p[0] in base.fields && base.fields[p[0]].Object? && over.Object? {
        MergeAt(base.fields[p[0]], over, p[1..]);
      } else {
        ReplacedAt(if p[0] in base.fields then Some(base.fields[p[0]]) else None, over, p[1..]);
      }
    }
  }

  /** Below a value that is not merged with the overlay's, only the overlay counts. */
  lemma ReplacedAt(base: Option<Value>, overlay: Value, p: Path)
    requires base.None? || base.value.Atom? || overlay.Atom?
    ensures var below := if base.Some? then At(base.value, p) else None;
      At(overlay, p).Some? ==> Merged(below, At(overlay, p).value) == At(overlay, p).value
    ensures At(overlay, p).None? && !Blocked(overlay, p) ==> base.None? || At(base.value, p).None?
  {
  }

  /** Every leaf of the overlay survives, every leaf of the base the overlay neither sets nor replaces an ancestor of, and no other. */
  lemma {:induction false} LeavesOfMerge(base: Value, overlay: Value, p: Path, leaf: Value)
    requires base.Object? && overlay.Object? && leaf.Atom?
    ensures At(Object(Merge(base.fields, overlay.fields)), p) == Some(leaf) <==>
      (At(overlay, p) == Some(leaf) ||
       (At(base, p) == Some(leaf) && At(overlay, p).None? && !Blocked(overlay, p)))
  {
    MergeAt(base, overlay, p);
  }

  // --------------------------------------------------------------- merging repeatedly

  /** Everything `part` has, `whole` has too, though possibly with another leaf. */
  ghost predicate Covered(part: Fields, whole: Fields)
    decreases Object(part)
  {
    forall k :: k in part ==>
      k in whole && (part[k].Object? && whole[k].Object? ==> Covered(part[k].fields, whole[k].fields))
  }

  /** An overlay absorbs a base exactly when it covers it. */
  lemma {:induction false} AbsorbedIff(base: Fields, overlay: Fields)
    ensures Merge(base, overlay) == overlay <==> Covered(base, overlay)
    decreases Object(overlay)
  {
    var m := Merge(base, overlay);
    forall k | k in base && k in overlay && base[k].Object? && overlay[k].Object?
      ensures Merge(base[k].fields, overlay[k].fields) == overlay[k].fields <==> Covered(base[k].fields, overlay[k].fields)
    {
      AbsorbedIff(base[k].fields, overlay[k].fields);
    }
    if m == overlay {
      forall k | k in base
        ensures k in overlay && (base[k].Object? && overlay[k].Object? ==> Covered(base[k].fields, overlay[k].fields))
      {
        assert k in m;
        if base[k].Object? && overlay[k].Object? {
          assert m[k] == Object(Merge(base[k].fields, overlay[k].fields));
        }
      }
    }
    if Covered(base, overlay) {
      assert m.Keys == overlay.Keys;
      forall k | k in overlay ensures m[k] == overlay[k] {
      }
    }
  }

  lemma {:induction false} CoveredByItself(f: Fields)
    ensures Covered(f, f)
    decreases Object(f)
  {
    forall k | k in f && f[k].Object? ensures Covered(f[k].fields, f[k].fields) {
      CoveredByItself(f[k].fields);
    }
  }

  lemma {:induction false} MergeCovers(base: Fields, overlay: Fields)
    ensures Covered(base, Merge(base, overlay))
    decreases Object(overlay)
  {
    var m := Merge(base, overlay);
    forall k | k in base && base[k].Object? && m[k].Object?
      ensures Covered(base[k].fields, m[k].fields)
    {
      if k in overlay {
        MergeCovers(base[k].fields, overlay[k].fields);
      } else {
        CoveredByItself(base[k].fields);
      }
    }
  }

  /** Merging the same overlay a second time changes nothing. */
  lemma {:induction false} MergeTwice(base: Fields, overlay: Fields)
    ensures Merge(Merge(base, overlay), overlay) == Merge(base, overlay)
    decreases Object(overlay)
  {
    var m := Merge(base, overlay);
    forall k | k in overlay ensures Merge(m, overlay)[k] == m[k] {
      if overlay[k].Object? {
        if k in base && base[k].Object? {
          MergeTwice(base[k].fields, overlay[k].fields);
        } else {
          CoveredByItself(overlay[k].fields);
          AbsorbedIff(overlay[k].fields, overlay[k].fields);
        }
      }
    }
  }

  /** Merging the result over the base it came from gives the result back. */
  lemma ResultOverBase(base: Fields, overlay: Fields)
    ensures Merge(base, Merge(base, overlay)) == Merge(base, overlay)
  {
    MergeCovers(base, overlay);
    AbsorbedIff(base, Merge(base, overlay));
  }

  // ------------------------------------------------------------------ associativity

  /** A leaf of `b` stands between objects of `a` and `c`, and `a`'s has something `c`'s lacks. */
  ghost predicate Clash(a: Fields, b: Fields, c: Fields)
    decreases Object(b), 1
  {
    exists k :: k in b && ClashAt(a, b, c, k)
  }

  ghost predicate ClashAt(a: Fields, b: Fields, c: Fields, k: string)
    decreases Object(b), 0
  {
    k in a && k in b && k in c && a[k].Object? && c[k].Object? &&
    (if b[k].Atom? then !Covered(a[k].fields, c[k].fields) else Clash(a[k].fields, b[k].fields, c[k].fields))
  }

  /** Grouping three sources differently gives the same result exactly when no leaf stands in between. */
  lemma {:induction false} AssociativeIff(a: Fields, b: Fields, c: Fields)
    ensures Merge(Merge(a, b), c) == Merge(a, Merge(b, c)) <==> !Clash(a, b, c)
    decreases Object(b)
  {
    var l, r := Merge(Merge(a, b), c), Merge(a, Merge(b, c));
    assert l.Keys == r.Keys;
    forall k | k in l ensures l[k] == r[k] <==> !ClashAt(a, b, c, k) {
      AssociativeAt(a, b, c, k);
      if k in a && k in b && k in c && a[k].Object? && b[k].Object? && c[k].Object? {
        AssociativeIff(a[k].fields, b[k].fields, c[k].fields);
      }
    }
    if Clash(a, b, c) {
      var k :| k in b && ClashAt(a, b, c, k);
      assert k in l;
    }
  }

  lemma {:induction false} AssociativeAt(a: Fields, b: Fields, c: Fields, k: string)
    requires k in Merge(Merge(a, b), c)
    ensures var l, r := Merge(Merge(a, b), c), Merge(a, Merge(b, c));
      k in r &&
      if k in a && k in b && k in c && a[k].Object? && c[k].Object? then
        if b[k].Atom? then l[k] == r[k] <==> Covered(a[k].fields, c[k].fields)
        else
          && l[k] == Object(Merge(Merge(a[k].fields, b[k].fields), c[k].fields))
          && r[k] == Object(Merge(a[k].fields, Merge(b[k].fields, c[k].fields)))
      else l[k] == r[k]
  {
    if k in a && k in c && a[k].Object? && c[k].Object? {
      AbsorbedIff(a[k].fields, c[k].fields);
    }
  }

  /** The smallest clash: merging from the left drops a key that merging from the right keeps. */
  lemma NotAssociative()
    ensures var a, b, c :=
        map["x" := Object(map["p" := Atom("1")])], map["x" := Atom("2")], map["x" := Object(map["q" := Atom("3")])];
      Merge(Merge(a, b), c) == c && Merge(a, Merge(b, c)) != c
  {
    var p: Fields := map["p" := Atom("1")];
    var q: Fields := map["q" := Atom("3")];
    var a: Fields := map["x" := Object(p)];
    var b: Fields := map["x" := Atom("2")];
    var c: Fields := map["x" := Object(q)];
    assert Merge(a, b) == b;
    assert Merge(b, c) == c;
    assert Merge(a, c)["x"] == Object(Merge(p, q));
    assert "p" in Merge(p, q) && "p" !in q;
  }

  // --------------------------------------------------------------- the Codex variable

  datatype Source = Persona | Generated | Parent

  datatype Error = NotJson(source: Source) | NotAnObject(source: Source) | SandboxNotAnObject

  const VARIABLE := "CODEX_CONFIG"
  const SANDBOX := "sandbox_workspace_write"
  const NETWORK := "network_access"
  const TRUE := Atom("true")

  /** The JSON parser; nothing is assumed of it. */
  type Parser = string -> Option<Value>

  datatype Variable = Variable(name: string, value: string)

  function Entries(env: seq<Variable>): seq<string> {
    if env == [] then []
    else
      var rest := Entries(env[..|env| - 1]);
      var last := env[|env| - 1];
      if last.name == VARIABLE then rest + [last.value] else rest
  }

  function ParseObject(parse: Parser, raw: string, source: Source): Result<Fields, Error> {
    match parse(raw)
    case None => Err(NotJson(source))
    case Some(Atom(_)) => Err(NotAnObject(source))
    case Some(Object(f)) => Ok(f)
  }

  function SourceOf(i: nat): Source {
    if i == 0 then Persona else Generated
  }

  /** The first `n` entries merged in order. */
  function Base(parse: Parser, entries: seq<string>, n: nat): Result<Fields, Error>
    requires 1 <= n <= |entries|
  {
    if n == 1 then ParseObject(parse, entries[0], Persona)
    else
      var before := Base(parse, entries, n - 1);
      if before.Err? then before
      else
        var last := ParseObject(parse, entries[n - 1], Generated);
        if last.Err? then last else Ok(Merge(before.value, last.value))
  }

  function WithParent(parse: Parser, base: Fields, parent: Option<string>): Result<Fields, Error> {
    if parent.None? then Ok(base)
    else
      var p := ParseObject(parse, parent.value, Parent);
      if p.Err? then p else Ok(Merge(base, p.value))
  }

  function Forced(f: Fields): Result<Fields, Error> {
    var sandbox := if SANDBOX in f then f[SANDBOX] else Object(map[]);
    match sandbox
    case Atom(_) => Err(SandboxNotAnObject)
    case Object(s) => Ok(f[SANDBOX := Object(s[NETWORK := TRUE])])
  }

  function Build(parse: Parser, env: seq<Variable>, parent: Option<string>, generated: bool)
    : Result<Option<Fields>, Error>
  {
    var entries := Entries(env);
    if !generated || entries == [] then Ok(None)
    else
      var base := Base(parse, entries, |entries|);
      if base.Err? then Err(base.error)
      else
        var all := WithParent(parse, base.value, parent);
        if all.Err? then Err(all.error)
        else
          var forced := Forced(all.value);
          if forced.Err? then Err(forced.error) else Ok(Some(forced.value))
  }

  /** Whenever there is a result, network access is on in it. */
  lemma NetworkAlwaysOn(parse: Parser, env: seq<Variable>, parent: Option<string>, generated: bool)
    requires var r := Build(parse, env, parent, generated); r.Ok? && r.value.Some?
    ensures At(Object(Build(parse, env, parent, generated).value.value), ["sandbox_workspace_write", "network_access"])
      == Some(Atom("true"))
  {
    var f := Build(parse, env, parent, generated).value.value;
    assert [SANDBOX, NETWORK][1..] == [NETWORK] && [NETWORK][1..] == [];
    assert SANDBOX in f && f[SANDBOX].Object? && NETWORK in f[SANDBOX].fields;
    assert At(f[SANDBOX], [NETWORK]) == Some(TRUE);
  }

  lemma ForcedKeepsCover(base: Fields, f: Fields)
    requires Covered(base, f) && Forced(f).Ok?
    ensures Covered(base, Forced(f).value)
  {
    var g := Forced(f).value;
    forall k | k in base && base[k].Object? && g[k].Object? ensures Covered(base[k].fields, g[k].fields) {
      if k == SANDBOX {
        assert f[k].Object?;
        assert Covered(base[k].fields, f[k].fields);
      }
    }
  }

  lemma ForcedTwice(f: Fields)
    requires Forced(f).Ok?
    ensures Forced(Forced(f).value) == Forced(f)
  {
    var g := Forced(f).value;
    assert g[SANDBOX].fields[NETWORK := TRUE] == g[SANDBOX].fields;
    assert g[SANDBOX := g[SANDBOX]] == g;
  }

  /** Handing the result to the next spawn as its parent configuration gives the same result. */
  lemma ResultAsParent(parse: Parser, env: seq<Variable>, parent: Option<string>, text: string)
    requires var r := Build(parse, env, parent, true);
      r.Ok? && r.value.Some? && parse(text) == Some(Object(r.value.value))
    ensures Build(parse, env, Some(text), true) == Build(parse, env, parent, true)
  {
    var entries := Entries(env);
    var base := Base(parse, entries, |entries|).value;
    var all := WithParent(parse, base, parent).value;
    var result := Forced(all).value;
    if parent.None? {
      CoveredByItself(base);
    } else {
      MergeCovers(base, ParseObject(parse, parent.value, Parent).value);
    }
    ForcedKeepsCover(base, all);
    AbsorbedIff(base, result);
    ForcedTwice(all);
  }

  /** A later entry's leaves replace what earlier entries have there. */
  lemma LaterEntriesWin(parse: Parser, entries: seq<string>, n: nat, p: Path, leaf: Value)
    requires 2 <= n <= |entries| && Base(parse, entries, n).Ok? && leaf.Atom?
    requires parse(entries[n - 1]).Some? && At(parse(entries[n - 1]).value, p) == Some(leaf)
    ensures At(Object(Base(parse, entries, n).value), p) == Some(leaf)
  {
    LeavesOfMerge(Object(Base(parse, entries, n - 1).value), parse(entries[n - 1]).value, p, leaf);
  }

  lemma EntriesSnoc(env: seq<Variable>, v: Variable)
    ensures Entries(env + [v]) == Entries(env) + (if v.name == VARIABLE then [v.value] else [])
  {
    assert (env + [v])[..|env|] == env;
  }

  lemma {:induction false} EntriesKept(env: seq<Variable>, more: seq<Variable>)
    requires forall i :: 0 <= i < |more| ==> more[i].name != VARIABLE
    ensures Entries(env + more) == Entries(env)
    decreases more
  {
    if more == [] {
      assert env + more == env;
    } else {
      var n := |more| - 1;
      assert env + more == (env + more[..n]) + [more[n]];
      EntriesSnoc(env + more[..n], more[n]);
      EntriesKept(env, more[..n]);
    }
  }

  /**
   * Over the environment itself: every leaf of the last variable of that name is in the
   * result, whatever comes before it or, under other names, after it, unless it is at or
   * below the forced one.
   */
  lemma {:induction false} LastVariableWins(parse: Parser, before: seq<Variable>, v: Variable, more: seq<Variable>,
                                            p: Path, leaf: Value)
    requires v.name == VARIABLE && forall i :: 0 <= i < |more| ==> more[i].name != VARIABLE
    requires Build(parse, before + [v] + more, None, true).Ok?
    requires parse(v.value).Some? && leaf.Atom? && At(parse(v.value).value, p) == Some(leaf) && !UnderNetwork(p)
    ensures var r := Build(parse, before + [v] + more, None, true).value;
      r.Some? && At(Object(r.value), p) == Some(leaf)
  {
    var entries := Entries(before + [v] + more);
    EntriesKept(before + [v], more);
    EntriesSnoc(before, v);
    assert entries[|entries| - 1] == v.value;
    var base := Base(parse, entries, |entries|).value;
    if |entries| >= 2 {
      LaterEntriesWin(parse, entries, |entries|, p, leaf);
    }
    ForcedAt(base, p, leaf);
  }

  /** The text parses as an object with this leaf at this path. */
  predicate Says(parse: Parser, text: string, p: Path, leaf: Value) {
    var v := parse(text);
    v.Some? && At(v.value, p) == Some(leaf)
  }

  ghost predicate SaidBySome(parse: Parser, entries: seq<string>, p: Path, leaf: Value) {
    exists i :: 0 <= i < |entries| && Says(parse, entries[i], p, leaf)
  }

  lemma {:induction false} BaseLeafHasSource(parse: Parser, entries: seq<string>, n: nat, p: Path, leaf: Value) returns (i: nat)
    requires 1 <= n <= |entries| && Base(parse, entries, n).Ok? && leaf.Atom?
    requires At(Object(Base(parse, entries, n).value), p) == Some(leaf)
    ensures i < n && Says(parse, entries[i], p, leaf)
    decreases n
  {
    if n == 1 {
      i := 0;
    } else {
      var before, last := Object(Base(parse, entries, n - 1).value), parse(entries[n - 1]).value;
      LeavesOfMerge(before, last, p, leaf);
      if At(last, p) == Some(leaf) {
        i := n - 1;
      } else {
        i := BaseLeafHasSource(parse, entries, n - 1, p, leaf);
      }
    }
  }

  /** Every leaf of the result but the forced one is a leaf of the parent or of an entry, at the same path. */
  lemma NothingInvented(parse: Parser, env: seq<Variable>, parent: Option<string>, p: Path, leaf: Value)
    requires var r := Build(parse, env, parent, true); r.Ok? && r.value.Some?
    requires leaf.Atom? && p != [SANDBOX, NETWORK]
    requires At(Object(Build(parse, env, parent, true).value.value), p) == Some(leaf)
    ensures (parent.Some? && Says(parse, parent.value, p, leaf)) ||
      SaidBySome(parse, Entries(env), p, leaf)
  {
    var entries := Entries(env);
    var base := Base(parse, entries, |entries|).value;
    var all := WithParent(parse, base, parent).value;
    ForcedAddsOneLeaf(all, p, leaf);
    if parent.Some? {
      LeavesOfMerge(Object(base), parse(parent.value).value, p, leaf);
    }
    if At(Object(base), p) == Some(leaf) {
      var i := BaseLeafHasSource(parse, entries, |entries|, p, leaf);
      assert SaidBySome(parse, entries, p, leaf);
    } else {
      assert Says(parse, parent.value, p, leaf);
    }
  }

  lemma ForcedAddsOneLeaf(f: Fields, p: Path, leaf: Value)
    requires Forced(f).Ok? && leaf.Atom? && At(Object(Forced(f).value), p) == Some(leaf) && p != [SANDBOX, NETWORK]
    ensures At(Object(f), p) == Some(leaf)
  {
    if UnderNetwork(p) {
      NothingBelowForced(f, p, leaf);
    } else if p[0] == SANDBOX {
      assert At(Forced(f).value[SANDBOX], p[1..]) == Some(leaf);
      assert p[1..] != [] && p[1..][0] != NETWORK;
    }
  }

  lemma NothingBelowForced(f: Fields, p: Path, leaf: Value)
    requires Forced(f).Ok? && leaf.Atom? && At(Object(Forced(f).value), p) == Some(leaf) && UnderNetwork(p)
    ensures p == [SANDBOX, NETWORK]
  {
    assert At(Forced(f).value[SANDBOX], p[1..]) == Some(leaf);
    assert p[1..][0] == NETWORK && At(TRUE, p[1..][1..]) == Some(leaf);
    assert p[1..][1..] == [];
    assert p == [p[0]] + [p[1]] + p[1..][1..];
  }

  predicate UnderNetwork(p: Path) {
    |p| >= 2 && p[0] == SANDBOX && p[1] == NETWORK
  }

  /** A leaf of the parent configuration is in the result, unless it is at or below the one that is forced. */
  lemma ParentLeavesWin(parse: Parser, env: seq<Variable>, parent: string, p: Path, leaf: Value)
    requires var r := Build(parse, env, Some(parent), true); r.Ok? && r.value.Some?
    requires parse(parent).Some? && parse(parent).value.Object?
    requires leaf.Atom? && At(parse(parent).value, p) == Some(leaf) && !UnderNetwork(p)
    ensures At(Object(Build(parse, env, Some(parent), true).value.value), p) == Some(leaf)
  {
    var entries := Entries(env);
    var base := Base(parse, entries, |entries|).value;
    var all := Merge(base, parse(parent).value.fields);
    LeavesOfMerge(Object(base), parse(parent).value, p, leaf);
    ForcedAt(all, p, leaf);
  }

  lemma ForcedAt(f: Fields, p: Path, leaf: Value)
    requires Forced(f).Ok? && leaf.Atom? && At(Object(f), p) == Some(leaf) && !UnderNetwork(p)
    ensures At(Object(Forced(f).value), p) == Some(leaf)
  {
    if p[0] == SANDBOX {
      assert At(f[SANDBOX], p[1..]) == Some(leaf);
      assert p[1..] != [] && p[1..][0] != NETWORK;
    }
  }

  /** The first entry that is no JSON object is the one reported, whatever follows. */
  lemma FirstBadEntryReported(parse: Parser, env: seq<Variable>, parent: Option<string>)
    requires var entries := Entries(env); FirstBad(parse, entries, |entries|).Some?
    ensures var entries := Entries(env);
      var i := FirstBad(parse, entries, |entries|).value;
      && i < |entries| && !IsObject(parse(entries[i]))
      && (forall j :: 0 <= j < i ==> IsObject(parse(entries[j])))
      && Build(parse, env, parent, true) == Err(Complaint(parse(entries[i]), if i == 0 then Persona else Generated))
  {
    var entries := Entries(env);
    BaseErr(parse, entries, |entries|);
    var i := FirstBad(parse, entries, |entries|).value;
    forall j | 0 <= j < i ensures IsObject(parse(entries[j])) {
      assert ParseObject(parse, entries[j], SourceOf(j)).Ok?;
    }
  }

  predicate IsObject(v: Option<Value>) {
    v.Some? && v.value.Object?
  }

  /** What is wrong with a text that is no JSON object. */
  function Complaint(v: Option<Value>, source: Source): Error {
    if v.None? then NotJson(source) else NotAnObject(source)
  }

  /** Nothing is built exactly when there is no signal or no variable of the name. */
  lemma {:induction false} BuildsUnless(parse: Parser, env: seq<Variable>, parent: Option<string>, generated: bool)
    ensures Build(parse, env, parent, generated) == Ok(None) <==>
      !generated || forall i :: 0 <= i < |env| ==> env[i].name != "CODEX_CONFIG"
  {
    EntriesEmptyIff(env);
  }

  lemma {:induction false} EntriesEmptyIff(env: seq<Variable>)
    ensures Entries(env) == [] <==> forall i :: 0 <= i < |env| ==> env[i].name != VARIABLE
    decreases env
  {
    if env != [] {
      var n := |env| - 1;
      EntriesEmptyIff(env[..n]);
      assert forall i :: 0 <= i < n ==> env[..n][i] == env[i];
    }
  }

  /** With sound entries the parent is checked next, and what is merged fails only on a leaf at the sandbox key. */
  lemma ParentThenSandbox(parse: Parser, env: seq<Variable>, parent: Option<string>)
    requires var entries := Entries(env); entries != [] && FirstBad(parse, entries, |entries|).None?
    ensures var entries := Entries(env);
      Base(parse, entries, |entries|).Ok?
    ensures var entries := Entries(env);
      var all := WithParent(parse, Base(parse, entries, |entries|).value, parent);
      var r := Build(parse, env, parent, true);
      if parent.Some? && !IsObject(parse(parent.value)) then r == Err(Complaint(parse(parent.value), Parent))
      else all.Ok? && r == SandboxChecked(all.value)
  {
    var entries := Entries(env);
    BaseErr(parse, entries, |entries|);
    var all := WithParent(parse, Base(parse, entries, |entries|).value, parent);
    if all.Ok? {
      LeafAtSandboxIff(all.value);
    }
  }

  function SandboxChecked(all: Fields): Result<Option<Fields>, Error> {
    if LeafAtSandbox(Object(all)) then Err(SandboxNotAnObject)
    else if Forced(all).Ok? then Ok(Some(Forced(all).value)) else Ok(None)
  }

  predicate LeafAtSandbox(v: Value) {
    var found := At(v, [SANDBOX]);
    found.Some? && found.value.Atom?
  }

  lemma LeafAtSandboxIff(all: Fields)
    ensures LeafAtSandbox(Object(all)) <==> Forced(all).Err?
  {
    var p: Path := [SANDBOX];
    assert p[0] == SANDBOX && p[1..] == [];
    assert SANDBOX in all ==> At(Object(all), p) == At(all[SANDBOX], []);
  }

  /** The first entry that is not a JSON object. */
  function FirstBad(parse: Parser, entries: seq<string>, n: nat): (i: Option<nat>)
    requires n <= |entries|
    ensures i.Some? ==> i.value < n && ParseObject(parse, entries[i.value], SourceOf(i.value)).Err?
    ensures forall j :: 0 <= j < (if i.Some? then i.value else n) ==> ParseObject(parse, entries[j], SourceOf(j)).Ok?
  {
    if n == 0 then None
    else
      var before := FirstBad(parse, entries, n - 1);
      if before.Some? then before
      else if ParseObject(parse, entries[n - 1], SourceOf(n - 1)).Err? then Some(n - 1) else None
  }

  lemma {:induction false} BaseErr(parse: Parser, entries: seq<string>, n: nat)
    requires 1 <= n <= |entries|
    ensures var i := FirstBad(parse, entries, n);
      var base := Base(parse, entries, n);
      if i.Some? then base == Err(ParseObject(parse, entries[i.value], SourceOf(i.value)).error) else base.Ok?
    decreases n
  {
    if n > 1 {
      BaseErr(parse, entries, n - 1);
    } else {
      assert FirstBad(parse, entries, 0).None?;
    }
  }

  method BuildCodexConfigEnv(parse: Parser, env: seq<Variable>, parent: Option<string>, generated: bool)
    returns (r: Result<Option<Fields>, Error>)
    ensures r == Build(parse, env, parent, generated)
  {
    if !generated {
      return Ok(None);
    }
    var entries := CollectEntries(env);
    if entries == [] {
      return Ok(None);
    }
    var parsed := ParseEntries(parse, entries);
    BaseErr(parse, entries, |entries|);
    if parsed.Err? {
      return Err(parsed.error);
    }
    var base := MergeParsed(parse, entries, parsed.value);
    if parent.Some? {
      var p := ParseObject(parse, parent.value, Parent);
      if p.Err? {
        return Err(p.error);
      }
      base := DeepMerge(base, p.value);
    }
    r := ForceNetwork(base);
  }

  method ForceNetwork(all: Fields) returns (r: Result<Option<Fields>, Error>)
    ensures var forced := Forced(all);
      r == if forced.Err? then Err(forced.error) else Ok(Some(forced.value))
  {
    var base := all;
    if SANDBOX !in base {
      base := base[SANDBOX := Object(map[])];
    }
    match base[SANDBOX]
    case Object(s) =>
      base := base[SANDBOX := Object(s[NETWORK := TRUE])];
      assert base == all[SANDBOX := Object(s[NETWORK := TRUE])];
      r := Ok(Some(base));
    case Atom(_) => r := Err(SandboxNotAnObject);
  }

  method CollectEntries(env: seq<Variable>) returns (entries: seq<string>)
    ensures entries == Entries(env)
  {
    entries := [];
    var i := 0;
    while i < |env|
      invariant 0 <= i <= |env|
      invariant entries == Entries(env[..i])
    {
      assert env[..i + 1][..i] == env[..i];
      if env[i].name == VARIABLE {
        entries := entries + [env[i].value];
      }
      i := i + 1;
    }
    assert env[..i] == env;
  }

  method ParseEntries(parse: Parser, entries: seq<string>) returns (r: Result<seq<Fields>, Error>)
    ensures var bad := FirstBad(parse, entries, |entries|);
      bad.Some? ==> r == Err(ParseObject(parse, entries[bad.value], SourceOf(bad.value)).error)
    ensures FirstBad(parse, entries, |entries|).None? ==>
      && r.Ok? && |r.value| == |entries|
      && forall j :: 0 <= j < |entries| ==> Ok(r.value[j]) == ParseObject(parse, entries[j], SourceOf(j))
  {
    var parsed: seq<Fields> := [];
    for i := 0 to |entries|
      invariant |parsed| == i && FirstBad(parse, entries, i).None?
      invariant forall j :: 0 <= j < i ==> Ok(parsed[j]) == ParseObject(parse, entries[j], SourceOf(j))
    {
      var p := ParseObject(parse, entries[i], SourceOf(i));
      if p.Err? {
        FirstBadStays(parse, entries, i, |entries|);
        return Err(p.error);
      }
      parsed := parsed + [p.value];
    }
    r := Ok(parsed);
  }

  lemma {:induction false} FirstBadStays(parse: Parser, entries: seq<string>, i: nat, n: nat)
    requires i < n <= |entries| && FirstBad(parse, entries, i + 1) == Some(i)
    ensures FirstBad(parse, entries, n) == Some(i)
    decreases n
  {
    if i + 1 < n {
      FirstBadStays(parse, entries, i, n - 1);
    }
  }

  method MergeParsed(parse: Parser, entries: seq<string>, parsed: seq<Fields>) returns (base: Fields)
    requires |parsed| == |entries| >= 1
    requires forall j :: 0 <= j < |entries| ==> Ok(parsed[j]) == ParseObject(parse, entries[j], SourceOf(j))
    ensures Base(parse, entries, |entries|) == Ok(base)
  {
    base := parsed[0];
    for i := 1 to |parsed|
      invariant Base(parse, entries, i) == Ok(base)
    {
      base := DeepMerge(base, parsed[i]);
    }
  }
}
