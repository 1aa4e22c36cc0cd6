/**
 * The pure part of `libpack`: which scripts the templates reference, and the
 * rollup input map generated from them.
 */
module Bundling {
  import opened Wrappers
  import opened Workspace

  /** The script a template document names, when its `ScriptName` is truthy (a non-empty string). */
  function ReferencedScript(t: TemplateDoc): Option<string> {
    if t.TemplateDoc? && t.scriptName.Some? && t.scriptName.value != "" then t.scriptName else None
  }

  /** The referenced script of every template, in glob order, repeats included. */
  function References(ts: seq<TemplateDoc>): (refs: seq<string>)
    ensures forall n :: n in refs <==> exists i :: 0 <= i < |ts| && ReferencedScript(ts[i]) == Some(n)
  {
    if ts == [] then []
    else
      var rest := References(ts[..|ts| - 1]);
      assert forall i :: 0 <= i < |ts| - 1 ==> ts[..|ts| - 1][i] == ts[i];
      match ReferencedScript(ts[|ts| - 1])
      case Some(n) => rest + [n]
      case None => rest
  }

  predicate Distinct(xs: seq<string>) {
    forall i, j :: 0 <= i < j < |xs| ==> xs[i] != xs[j]
  }

  /** The index of the first occurrence of `x` in `xs`. */
  function FirstIndex(xs: seq<string>, x: string): (k: nat)
    requires x in xs
    ensures k < |xs| && xs[k] == x
    ensures forall i :: 0 <= i < k ==> xs[i] != x
  {
    if xs[0] == x then 0 else 1 + FirstIndex(xs[1..], x)
  }

  /**
   * The keys of the accumulator object the template scan reduces into:
   * each value once, at the place it was first inserted.
   */
  function Dedup(xs: seq<string>): (d: seq<string>)
    ensures Distinct(d)
    ensures forall x :: x in d <==> x in xs
    ensures forall i, j :: 0 <= i < j < |d| ==> FirstIndex(xs, d[i]) < FirstIndex(xs, d[j])
  {
    if xs == [] then []
    else
      var init := xs[..|xs| - 1];
      var last := xs[|xs| - 1];
      var d := Dedup(init);
      assert xs == init + [last];
      forall x | x in init ensures FirstIndex(xs, x) == FirstIndex(init, x) {
        FirstIndexOfPrefix(init, [last], x);
      }
      if last in d then d
      else
        assert FirstIndex(xs, last) == |xs| - 1;
        d + [last]
  }

  /** A first occurrence inside a prefix is the first occurrence in the whole sequence. */
  lemma {:induction false} FirstIndexOfPrefix(xs: seq<string>, ys: seq<string>, x: string)
    requires x in xs
    ensures FirstIndex(xs + ys, x) == FirstIndex(xs, x)
  {
    if xs[0] != x {
      assert (xs + ys)[1..] == xs[1..] + ys;
      FirstIndexOfPrefix(xs[1..], ys, x);
    }
  }

  // ------------------------------------------------------------------ property keys

  predicate IsDigit(c: char) { '0' <= c <= '9' }

  /** The value of a string of decimal digits. */
  function DecimalValue(s: string): int {
    if s == [] then 0 else DecimalValue(s[..|s| - 1]) * 10 + (s[|s| - 1] as int - '0' as int)
  }

  /**
   * An array index as JavaScript objects know it: a decimal numeral without
   * leading zeros whose value is below 2^32 - 1. `Object.keys` lists these
   * keys first, in ascending numeric order, and every other key after them
   * in the order it was created.
   */
  predicate IsArrayIndex(s: string) {
    && |s| > 0
    && (forall i :: 0 <= i < |s| ==> IsDigit(s[i]))
    && (s[0] != '0' || |s| == 1)
    && DecimalValue(s) < 0xFFFF_FFFF
  }

  /** Assigning to `acc["__proto__"]` sets the prototype, and a boolean prototype is ignored: no key is made. */
  const ProtoKey := "__proto__"

  /** `xs`, every name in it referenced in `refs`, lists them in the order of their first reference. */
  predicate InFirstOrder(refs: seq<string>, xs: seq<string>) {
    && (forall x :: x in xs ==> x in refs)
    && (forall i, j :: 0 <= i < j < |xs| ==> FirstIndex(refs, xs[i]) < FirstIndex(refs, xs[j]))
  }

  /** The names of `xs` that make an own key and are (or are not, by `index`) array indices, in order. */
  function Select(xs: seq<string>, index: bool): (r: seq<string>)
    ensures forall x :: x in r <==> x in xs && x != ProtoKey && IsArrayIndex(x) == index
    ensures Distinct(xs) ==> Distinct(r)
  {
    if xs == [] then []
    else
      var rest := Select(xs[1..], index);
      assert forall x :: x in xs[1..] ==> x in xs;
      assert forall x :: x in xs ==> x == xs[0] || x in xs[1..];
      if xs[0] != ProtoKey && IsArrayIndex(xs[0]) == index then [xs[0]] + rest else rest
  }

  /** Selecting keeps the order of first reference. */
  lemma {:induction false} SelectKeepsOrder(refs: seq<string>, xs: seq<string>, index: bool)
    requires InFirstOrder(refs, xs)
    ensures InFirstOrder(refs, Select(xs, index))
    decreases |xs|
  {
    if xs != [] {
      var tail := xs[1..];
      assert InFirstOrder(refs, tail) by {
        forall i, j | 0 <= i < j < |tail| ensures FirstIndex(refs, tail[i]) < FirstIndex(refs, tail[j]) {
          assert tail[i] == xs[i + 1] && tail[j] == xs[j + 1];
        }
      }
      SelectKeepsOrder(refs, tail, index);
      var rest := Select(tail, index);
      if xs[0] != ProtoKey && IsArrayIndex(xs[0]) == index {
        var r := [xs[0]] + rest;
        forall i, j | 0 <= i < j < |r| ensures FirstIndex(refs, r[i]) < FirstIndex(refs, r[j]) {
          if i == 0 {
            assert r[j] in tail;
            var k :| 0 <= k < |tail| && tail[k] == r[j];
            assert xs[k + 1] == r[j];
          } else {
            assert r[i] == rest[i - 1] && r[j] == rest[j - 1];
          }
        }
      }
    }
  }

  /** Names in ascending numeric order. */
  predicate Ascending(xs: seq<string>) {
    forall i, j :: 0 <= i < j < |xs| ==> DecimalValue(xs[i]) <= DecimalValue(xs[j])
  }

  /** Inserts a name into an ascending list of names. */
  function Insert(x: string, ys: seq<string>): (r: seq<string>)
    requires Ascending(ys)
    ensures |r| == |ys| + 1
    ensures forall z :: z in r <==> z == x || z in ys
    ensures Ascending(r)
    ensures Distinct(ys) && x !in ys ==> Distinct(r)
  {
    if ys == [] || DecimalValue(x) <= DecimalValue(ys[0]) then
      AscendingCons(x, ys);
      DistinctCons(x, ys);
      [x] + ys
    else
      var rest := Insert(x, ys[1..]);
      InsertStep(x, ys, rest);
      [ys[0]] + rest
  }

  /** The step of `Insert` past the head of `ys`. */
  lemma InsertStep(x: string, ys: seq<string>, rest: seq<string>)
    requires Ascending(ys) && ys != [] && DecimalValue(ys[0]) < DecimalValue(x)
    requires Ascending(rest) && forall z :: z in rest <==> z == x || z in ys[1..]
    requires Distinct(ys[1..]) && x !in ys[1..] ==> Distinct(rest)
    ensures Ascending([ys[0]] + rest)
    ensures Distinct(ys) && x !in ys ==> Distinct([ys[0]] + rest)
  {
    forall z | z in rest ensures DecimalValue(ys[0]) <= DecimalValue(z) {
      if z != x {
        var k :| 0 <= k < |ys[1..]| && ys[1..][k] == z;
        assert ys[k + 1] == z;
      }
    }
    AscendingCons(ys[0], rest);
    if Distinct(ys) && x !in ys {
      assert ys[0] !in ys[1..];
      assert forall z :: z in ys[1..] ==> z in ys;
      DistinctCons(ys[0], rest);
    }
  }

  /** A name no greater than every name of an ascending list heads an ascending list. */
  lemma AscendingCons(x: string, ys: seq<string>)
    requires Ascending(ys)
    requires forall z :: z in ys ==> DecimalValue(x) <= DecimalValue(z)
    ensures Ascending([x] + ys)
  {
    var r := [x] + ys;
    forall i, j | 0 <= i < j < |r| ensures DecimalValue(r[i]) <= DecimalValue(r[j]) {
      assert r[j] == ys[j - 1];
      if i > 0 {
        assert r[i] == ys[i - 1];
      }
    }
  }

  /** A name not in a distinct list heads a distinct list. */
  lemma DistinctCons(x: string, ys: seq<string>)
    ensures Distinct(ys) && x !in ys ==> Distinct([x] + ys)
  {
    if Distinct(ys) && x !in ys {
      var r := [x] + ys;
      forall i, j | 0 <= i < j < |r| ensures r[i] != r[j] {
        assert r[j] == ys[j - 1];
        if i > 0 {
          assert r[i] == ys[i - 1];
        }
      }
    }
  }

  /** Insertion sort of names by their numeric value. */
  function SortIndices(xs: seq<string>): (r: seq<string>)
    ensures |r| == |xs|
    ensures forall z :: z in r <==> z in xs
    ensures Ascending(r)
    ensures Distinct(xs) ==> Distinct(r)
  {
    if xs == [] then []
    else
      assert forall z :: z in xs[1..] ==> z in xs;
      assert forall z :: z in xs ==> z == xs[0] || z in xs[1..];
      Insert(xs[0], SortIndices(xs[1..]))
  }

  /**
   * The scripts libpack bundles: `Object.keys` of the object the template
   * scan reduces into. Each truthy `ScriptName` becomes a key once, except
   * `__proto__`; `ScriptNamesOrder` gives the order of the keys.
   */
  function ScriptNames(ts: seq<TemplateDoc>): (names: seq<string>)
    ensures Distinct(names)
    ensures forall n :: n in names <==> n != ProtoKey && exists i :: 0 <= i < |ts| && ReferencedScript(ts[i]) == Some(n)
  {
    var keys := Dedup(References(ts));
    var indices := SortIndices(Select(keys, true));
    var others := Select(keys, false);
    KeysInOrder(indices, others);
    indices + others
  }

  /**
   * The order of the keys: the array-index names first, in ascending
   * numeric order, then the other names in the order of their first
   * reference.
   */
  lemma ScriptNamesOrder(ts: seq<TemplateDoc>)
    ensures var names := ScriptNames(ts);
            forall i, j :: 0 <= i < j < |names| && IsArrayIndex(names[j]) ==>
              IsArrayIndex(names[i]) && DecimalValue(names[i]) <= DecimalValue(names[j])
    ensures var names := ScriptNames(ts);
            forall i, j :: 0 <= i < j < |names| && !IsArrayIndex(names[i]) ==>
              !IsArrayIndex(names[j]) && FirstIndex(References(ts), names[i]) < FirstIndex(References(ts), names[j])
  {
    var refs := References(ts);
    var keys := Dedup(refs);
    var indices := SortIndices(Select(keys, true));
    var others := Select(keys, false);
    SelectKeepsOrder(refs, keys, false);
    KeysInOrder(indices, others);
  }

  /** The index names, then the others: distinct, and each part kept in its own order. */
  lemma KeysInOrder(indices: seq<string>, others: seq<string>)
    requires Distinct(indices) && Distinct(others)
    requires forall x :: x in indices ==> IsArrayIndex(x)
    requires forall x :: x in others ==> !IsArrayIndex(x)
    ensures Distinct(indices + others)
    ensures forall j :: |indices| <= j < |indices + others| ==> !IsArrayIndex((indices + others)[j])
    ensures forall i :: |indices| <= i < |indices + others| ==> (indices + others)[i] == others[i - |indices|]
  {
    var names := indices + others;
    forall i, j | 0 <= i < j < |names| ensures names[i] != names[j] {
      if i < |indices| && |indices| <= j {
        assert names[i] in indices && names[j] in others;
      } else if |indices| <= i {
        assert names[i] == others[i - |indices|] && names[j] == others[j - |indices|];
      }
    }
    forall j | |indices| <= j < |names| ensures !IsArrayIndex(names[j]) {
      assert names[j] == others[j - |indices|];
    }
  }

  /** The one module rollup leaves external: the host's scripting API. */
  const HostApiModule := "@tabletop-playground/api"

  /** The build path of an entry: `./build/<name>`. */
  function EntryPath(name: string): string {
    "./build/" + name
  }

  /** The generated rollup config: one input entry per script, and the host API as the only external. */
  function RollupConfigFor(names: seq<string>): (c: RollupConfig)
    ensures |c.input| == |names|
    ensures forall i :: 0 <= i < |names| ==> c.input[i] == RollupEntry(names[i], EntryPath(names[i]))
    ensures c.external == [HostApiModule]
  {
    RollupConfig(seq(|names|, i requires 0 <= i < |names| => RollupEntry(names[i], EntryPath(names[i]))), [HostApiModule])
  }

  /** The entry names of an input map, in order. */
  function EntryNames(input: seq<RollupEntry>): (names: seq<string>)
    ensures |names| == |input|
    ensures forall i :: 0 <= i < |input| ==> names[i] == input[i].name
  {
    seq(|input|, i requires 0 <= i < |input| => input[i].name)
  }

  /** The bundles rollup writes into `./lib`: one per input entry, named after it. */
  function BundleOutputs(config: RollupConfig): set<string> {
    set n | n in EntryNames(config.input)
  }

  /** Rollup writes one bundle per script name of the config. */
  lemma BundleOutputsOf(names: seq<string>)
    ensures BundleOutputs(RollupConfigFor(names)) == set n | n in names
  {
    assert EntryNames(RollupConfigFor(names).input) == names;
  }

  /** The entry path strips back to the entry name. */
  function EntryName(path: string): Option<string> {
    if |path| >= 8 && path[..8] == "./build/" then Some(path[8..]) else None
  }

  /**
   * The input map is a faithful function of the scripts: its names are the
   * scripts themselves, each key occurs once (so the object literal loses
   * nothing), and each path leads back to its key.
   */
  lemma RollupInputRoundTrip(ts: seq<TemplateDoc>)
    ensures var c := RollupConfigFor(ScriptNames(ts));
            && EntryNames(c.input) == ScriptNames(ts)
            && Distinct(EntryNames(c.input))
            && forall i :: 0 <= i < |c.input| ==> EntryName(c.input[i].path) == Some(c.input[i].name)
  {
    var names := ScriptNames(ts);
    var c := RollupConfigFor(names);
    forall i | 0 <= i < |c.input| ensures EntryName(c.input[i].path) == Some(c.input[i].name) {
      var p := c.input[i].path;
      assert p == "./build/" + names[i];
      assert p[..8] == "./build/" && p[8..] == names[i];
    }
  }
}
