/** Redaction filters (filter.go): a filter pairs a compiled pattern with the
    replacement bytes substituted for every match; a chain of filters is
    applied as a left fold, each filter's output feeding the next.

    The regular-expression library is not modelled: it is the `Engine` value
    handed to every operation, which says which pattern texts compile and what
    `ReplaceAll` returns. A `Filter` keeps the pattern's source text, which
    stands for the regexp compiled from it. */
module Filters {
  import opened Wrappers
  import opened GoStrings

  /** The regexp library: `compiles(p)` holds when `regexp.MustCompile(p)`
      succeeds, and `replaceAll(p, src, repl)` is what
      `regexp.MustCompile(p).ReplaceAll(src, repl)` returns. */
  datatype Engine = Engine(
    compiles: GoString -> bool,
    replaceAll: (GoString, GoString, GoString) -> GoString)

  /** A compiled filter: the pattern it was compiled from and the
      replacement bytes. */
  datatype Filter = Filter(pattern: GoString, repl: GoString)

  /** The panic raised by `regexp.MustCompile` on a pattern that does not
      compile. */
  datatype Panic = CompilePanic(pattern: GoString)

  /** The separator between pattern and replacement in a filter spec. */
  const Arrow: GoString := "==>"

  /** The five built-in rules, in order: JSON-quoted `"password"`, bare
      `password:`, backslash-escaped JSON, `password=…&` and `password=…`
      followed by a non-space byte. */
  const DefaultRules: seq<(GoString, GoString)> := [
    ("\"password\":(\\s*)\".*?\"", "\"password\":$1\"*\""),
    ("password:(\\s*).*?\\S*", "password:$1*"),
    ("\\\\\"password\\\\\":(\\s*)\\\\\".*?\\\\\"", "\\\"password\\\":$1\\\"*\\\""),
    ("password=\\w*&", "password=*&"),
    ("password=\\w*\\S", "password=*")
  ]

  /** `newFilter(rule, repl)`: compile the rule, or panic. */
  function NewFilter(re: Engine, rule: GoString, repl: GoString): (r: Result<Filter, Panic>)
    ensures r.Success? <==> re.compiles(rule)
    ensures r.Success? ==> r.value.pattern == rule && r.value.repl == repl
    ensures r.Failure? ==> r.error == CompilePanic(rule)
  {
    if re.compiles(rule) then Success(Filter(rule, repl)) else Failure(CompilePanic(rule))
  }

  /** Rule `k` is the first whose pattern does not compile. */
  predicate FirstUncompiled(re: Engine, rules: seq<(GoString, GoString)>, k: int)
  {
    && 0 <= k < |rules|
    && !re.compiles(rules[k].0)
    && forall j :: 0 <= j < k ==> re.compiles(rules[j].0)
  }

  /** `newFilter` applied to each rule in order, as the variadic `append`
      in `init` evaluates its arguments; the first rule that does not
      compile panics. */
  function NewFilters(re: Engine, rules: seq<(GoString, GoString)>): (r: Result<seq<Filter>, Panic>)
    ensures r.Success? <==> forall k :: 0 <= k < |rules| ==> re.compiles(rules[k].0)
    ensures r.Success? ==> |r.value| == |rules|
    ensures r.Success? ==> forall k :: 0 <= k < |rules| ==> r.value[k] == Filter(rules[k].0, rules[k].1)
    ensures r.Failure? ==> exists k :: FirstUncompiled(re, rules, k) && r.error == CompilePanic(rules[k].0)
  {
    if rules == [] then Success([])
    else
      var f :- NewFilter(re, rules[0].0, rules[0].1);
      var rest :- NewFilters(re, rules[1..]);
      Success([f] + rest)
  }

  /** The contents of the package-level `defaultFilters` once `init` has run. */
  function DefaultFilters(): (fs: seq<Filter>)
    ensures |fs| == |DefaultRules|
    ensures forall k :: 0 <= k < |fs| ==> fs[k] == Filter(DefaultRules[k].0, DefaultRules[k].1)
  {
    seq(|DefaultRules|, k requires 0 <= k < |DefaultRules| => Filter(DefaultRules[k].0, DefaultRules[k].1))
  }

  /** The package `init`: append the five built-in filters to the (empty)
      `defaultFilters`. */
  function Init(re: Engine): Result<seq<Filter>, Panic>
  {
    NewFilters(re, DefaultRules)
  }

  /** `init` succeeds exactly when all five built-in patterns compile, and
      then yields the five default filters in their declared order. */
  lemma InitYieldsDefaults(re: Engine)
    ensures Init(re).Success? <==> forall k :: 0 <= k < |DefaultRules| ==> re.compiles(DefaultRules[k].0)
    ensures Init(re).Success? ==> Init(re).value == DefaultFilters()
  {
  }

  /** There are five default filters, and the `&`-terminated query-string
      rule comes before the catch-all end-of-value rule. */
  lemma DefaultOrder()
    ensures |DefaultFilters()| == 5
    ensures DefaultFilters()[3] == Filter("password=\\w*&", "password=*&")
    ensures DefaultFilters()[4] == Filter("password=\\w*\\S", "password=*")
  {
  }

  // ---------------------------------------------------------------------
  // Specs: "pattern==>replacement"

  /** The `strings.Split(spec, "==>")` test of `newFilterBySlice`: a spec
      that splits into exactly two words gives (pattern, replacement). */
  function ParseSpec(spec: GoString): Option<(GoString, GoString)>
  {
    var words := Split(spec, Arrow);
    if |words| != 2 then None else Some((words[0], words[1]))
  }

  lemma ArrowUnbordered()
    ensures Unbordered(Arrow)
  {
    forall d | 0 < d < |Arrow|
      ensures Arrow[d..] != Arrow[..|Arrow| - d]
    {
      assert Arrow[d..][|Arrow| - d - 1] == '>';
      assert Arrow[..|Arrow| - d][|Arrow| - d - 1] == '=';
    }
  }

  /** A spec is kept if and only if `==>` occurs in it exactly once. */
  lemma {:induction false} ParseSpecKeptIffOneArrow(spec: GoString)
    ensures ParseSpec(spec).Some? <==> Occurrences(spec, Arrow) == 1
  {
    ArrowUnbordered();
    SplitCount(spec, Arrow);
  }

  /** A kept spec is its pattern, `==>` and its replacement, neither of which
      contains `==>`. */
  lemma {:induction false} ParseSpecParts(spec: GoString)
    requires ParseSpec(spec).Some?
    ensures spec == ParseSpec(spec).value.0 + Arrow + ParseSpec(spec).value.1
    ensures !Contains(ParseSpec(spec).value.0, Arrow) && !Contains(ParseSpec(spec).value.1, Arrow)
  {
    var words := Split(spec, Arrow);
    SplitJoin(spec, Arrow);
    SplitPartsFree(spec, Arrow);
    assert words[1..] == [words[1]];
    assert Join(words, Arrow) == words[0] + Arrow + words[1];
  }

  /** Writing a pattern and a replacement, both free of `==>`, as a spec and
      parsing it gives them back unchanged. */
  lemma {:induction false} ParseSpecOfJoined(pattern: GoString, repl: GoString)
    requires !Contains(pattern, Arrow) && !Contains(repl, Arrow)
    ensures ParseSpec(pattern + Arrow + repl) == Some((pattern, repl))
  {
    ArrowUnbordered();
    var parts := [pattern, repl];
    assert parts[1..] == [repl];
    assert Join(parts, Arrow) == pattern + Arrow + repl;
    JoinSplit(parts, Arrow);
  }

  /** The spec `==>` alone is kept, with an empty pattern and an empty
      replacement. */
  lemma ArrowAloneKept()
    ensures ParseSpec("==>") == Some(([], []))
  {
    var empty: GoString := [];
    assert !Contains(empty, Arrow);
    ParseSpecOfJoined(empty, empty);
    assert empty + Arrow + empty == "==>";
  }

  /** A spec without any `>` byte cannot contain `==>` and is skipped. */
  lemma {:induction false} SkippedWithoutArrow(spec: GoString)
    requires forall i :: 0 <= i < |spec| ==> spec[i] != '>'
    ensures ParseSpec(spec) == None
  {
    forall i | 0 <= i <= |spec|
      ensures !IsAt(spec, i, Arrow)
    {
      if i + 3 <= |spec| {
        assert spec[i..i + 3][2] == spec[i + 2] != '>';
      }
    }
    assert Split(spec, Arrow) == [spec];
  }

  /** The specs that `newFilterBySlice` keeps, in their input order. */
  function KeptSpecs(specs: seq<GoString>): (kept: seq<GoString>)
    ensures |kept| <= |specs|
    ensures forall k :: 0 <= k < |kept| ==> ParseSpec(kept[k]).Some?
    decreases |specs|
  {
    if specs == [] then []
    else (if ParseSpec(specs[0]).Some? then [specs[0]] else []) + KeptSpecs(specs[1..])
  }

  /** The kept specs are exactly the specs that parse. */
  lemma {:induction false} KeptSpecsMembers(specs: seq<GoString>)
    ensures forall s :: s in KeptSpecs(specs) <==> s in specs && ParseSpec(s).Some?
    decreases |specs|
  {
    if specs != [] {
      KeptSpecsMembers(specs[1..]);
      assert specs == [specs[0]] + specs[1..];
    }
  }

  /** The filter a kept spec describes. */
  function SpecFilter(spec: GoString): Filter
    requires ParseSpec(spec).Some?
  {
    Filter(ParseSpec(spec).value.0, ParseSpec(spec).value.1)
  }

  /** The filters of the kept specs, in spec order. */
  function FiltersOf(specs: seq<GoString>): (fs: seq<Filter>)
    ensures |fs| == |KeptSpecs(specs)|
    ensures forall k :: 0 <= k < |fs| ==> fs[k] == SpecFilter(KeptSpecs(specs)[k])
    decreases |specs|
  {
    if specs == [] then []
    else (if ParseSpec(specs[0]).Some? then [SpecFilter(specs[0])] else []) + FiltersOf(specs[1..])
  }

  /** Every kept spec's pattern compiles. */
  predicate KeptCompile(re: Engine, specs: seq<GoString>)
  {
    forall k :: 0 <= k < |specs| && ParseSpec(specs[k]).Some? ==> re.compiles(ParseSpec(specs[k]).value.0)
  }

  /** What `newFilterBySlice(specs)` does, spec by spec from the first: the
      filters built or the panic raised, and the specs it issued a warning
      for (the `Warnf` call sits on the branch of a well-formed spec). */
  function BuildFilters(re: Engine, specs: seq<GoString>): (Result<seq<Filter>, Panic>, seq<GoString>)
    decreases |specs|
  {
    if specs == [] then (Success([]), [])
    else
      var (r, warned) := BuildFilters(re, specs[..|specs| - 1]);
      var spec := specs[|specs| - 1];
      if r.Failure? then (r, warned)
      else match ParseSpec(spec)
        case None => (r, warned)
        case Some((pattern, repl)) =>
          (if re.compiles(pattern) then Success(r.value + [Filter(pattern, repl)])
           else Failure(CompilePanic(pattern)),
           warned + [spec])
  }

  /** Keeping specs distributes over concatenation: order is preserved. */
  lemma {:induction false} KeptSpecsAppend(a: seq<GoString>, b: seq<GoString>)
    ensures KeptSpecs(a + b) == KeptSpecs(a) + KeptSpecs(b)
    decreases |a|
  {
    if a == [] {
      assert a + b == b;
    } else {
      assert (a + b)[0] == a[0];
      assert (a + b)[1..] == a[1..] + b;
      KeptSpecsAppend(a[1..], b);
    }
  }

  /** Building filters distributes over concatenation: order is preserved. */
  lemma {:induction false} FiltersOfAppend(a: seq<GoString>, b: seq<GoString>)
    ensures FiltersOf(a + b) == FiltersOf(a) + FiltersOf(b)
    decreases |a|
  {
    if a == [] {
      assert a + b == b;
    } else {
      assert (a + b)[0] == a[0];
      assert (a + b)[1..] == a[1..] + b;
      FiltersOfAppend(a[1..], b);
    }
  }

  /** `newFilterBySlice` succeeds exactly when every kept spec's pattern
      compiles; it then returns the kept specs' filters in spec order, and
      has warned about exactly the kept specs. */
  lemma {:induction false} BuildFiltersSucceeds(re: Engine, specs: seq<GoString>)
    ensures BuildFilters(re, specs).0.Success? <==> KeptCompile(re, specs)
    ensures BuildFilters(re, specs).0.Success? ==>
      BuildFilters(re, specs).0.value == FiltersOf(specs) &&
      BuildFilters(re, specs).1 == KeptSpecs(specs)
    decreases |specs|
  {
    if specs != [] {
      var init, last := specs[..|specs| - 1], specs[|specs| - 1];
      BuildFiltersSucceeds(re, init);
      KeptSpecsAppend(init, [last]);
      FiltersOfAppend(init, [last]);
      assert init + [last] == specs;
      var single: seq<GoString> := [last];
      assert single[1..] == [];
      assert KeptCompile(re, specs) <==>
        KeptCompile(re, init) && (ParseSpec(last).Some? ==> re.compiles(ParseSpec(last).value.0)) by {
        if KeptCompile(re, init) && (ParseSpec(last).Some? ==> re.compiles(ParseSpec(last).value.0)) {
          forall k | 0 <= k < |specs| && ParseSpec(specs[k]).Some?
            ensures re.compiles(ParseSpec(specs[k]).value.0)
          {
            if k < |init| { assert specs[k] == init[k]; }
          }
        }
        if KeptCompile(re, specs) {
          forall k | 0 <= k < |init| && ParseSpec(init[k]).Some?
            ensures re.compiles(ParseSpec(init[k]).value.0)
          {
            assert specs[k] == init[k];
          }
        }
      }
    }
  }

  /** Spec `k` is the first kept spec whose pattern does not compile, the
      result is its panic, and `warned` lists the kept specs up to it. */
  predicate PanicsAt(re: Engine, specs: seq<GoString>, k: int,
                     built: (Result<seq<Filter>, Panic>, seq<GoString>))
  {
    && 0 <= k < |specs|
    && ParseSpec(specs[k]).Some?
    && !re.compiles(ParseSpec(specs[k]).value.0)
    && built.0 == Failure(CompilePanic(ParseSpec(specs[k]).value.0))
    && KeptCompile(re, specs[..k])
    && built.1 == KeptSpecs(specs[..k + 1])
  }

  /** On a panic, the panicking pattern is that of a kept spec at some
      position `k`, every kept spec before it compiles, and the warnings
      issued are those for the kept specs up to and including it. */
  lemma {:induction false} BuildFiltersPanics(re: Engine, specs: seq<GoString>)
    requires BuildFilters(re, specs).0.Failure?
    ensures exists k :: PanicsAt(re, specs, k, BuildFilters(re, specs))
    decreases |specs|
  {
    var init, last := specs[..|specs| - 1], specs[|specs| - 1];
    var (r, warned) := BuildFilters(re, init);
    if r.Failure? {
      BuildFiltersPanics(re, init);
      var k :| PanicsAt(re, init, k, (r, warned));
      assert specs[k] == init[k];
      assert specs[..k] == init[..k];
      assert specs[..k + 1] == init[..k + 1];
      assert BuildFilters(re, specs) == (r, warned);
      assert PanicsAt(re, specs, k, BuildFilters(re, specs));
    } else {
      var k := |specs| - 1;
      BuildFiltersSucceeds(re, init);
      assert specs[..k] == init;
      assert specs[..k + 1] == specs;
      KeptSpecsAppend(init, [last]);
      assert init + [last] == specs;
      var single: seq<GoString> := [last];
      assert single[1..] == [];
      assert ParseSpec(last).Some? && !re.compiles(ParseSpec(last).value.0);
      assert KeptSpecs(single) == single;
      assert BuildFilters(re, specs).1 == warned + single;
      assert PanicsAt(re, specs, k, BuildFilters(re, specs));
    }
  }

  /** At most one filter per spec, and none from no specs. */
  lemma BuildFiltersBounds(re: Engine, specs: seq<GoString>)
    ensures BuildFilters(re, specs).0.Success? ==> |BuildFilters(re, specs).0.value| <= |specs|
    ensures BuildFilters(re, []) == (Success([]), [])
  {
    BuildFiltersSucceeds(re, specs);
  }

  /** A well-formed and a malformed spec give exactly the well-formed one's
      filter when its pattern compiles. */
  lemma BuildFiltersSkipsMalformed(re: Engine)
    requires re.compiles("a")
    ensures BuildFilters(re, ["a==>b", "no-delimiter-here"]).0 == Success([Filter("a", "b")])
  {
    var a: GoString := "a";
    var b: GoString := "b";
    var good: GoString := "a==>b";
    var bad: GoString := "no-delimiter-here";
    assert !Contains(a, Arrow);
    assert !Contains(b, Arrow);
    ParseSpecOfJoined(a, b);
    assert a + Arrow + b == good;
    SkippedWithoutArrow(bad);
    var specs: seq<GoString> := [good, bad];
    BuildFiltersSucceeds(re, specs);
    assert specs[1..] == [bad];
    assert KeptSpecs([bad]) == [];
    assert FiltersOf(specs) == [Filter(a, b)];
  }

  /** `newFilterBySlice(specs)`: split each spec on `==>`, skip the ones
      that do not give exactly two words, warn about the others and compile
      them in order. `warned` lists the specs passed to `Warnf`. */
  method NewFilterBySlice(re: Engine, specs: seq<GoString>)
    returns (r: Result<seq<Filter>, Panic>, warned: seq<GoString>)
    ensures (r, warned) == BuildFilters(re, specs)
  {
    var filters: seq<Filter> := [];
    warned := [];
    for i := 0 to |specs|
      invariant (Success(filters), warned) == BuildFilters(re, specs[..i])
    {
      assert specs[..i + 1][..i] == specs[..i];
      var words := Split(specs[i], Arrow);
      if |words| != 2 {
        continue;
      }
      warned := warned + [specs[i]];
      var f := NewFilter(re, words[0], words[1]);
      if f.Failure? {
        assert (Failure(f.error), warned) == BuildFilters(re, specs[..i + 1]);
        BuildFiltersStops(re, specs, i + 1);
        return Failure(f.error), warned;
      }
      filters := filters + [f.value];
    }
    assert specs[..|specs|] == specs;
    r := Success(filters);
  }

  /** Once a prefix of the specs panics, the whole list panics the same way. */
  lemma {:induction false} BuildFiltersStops(re: Engine, specs: seq<GoString>, n: nat)
    requires n <= |specs| && BuildFilters(re, specs[..n]).0.Failure?
    ensures BuildFilters(re, specs) == BuildFilters(re, specs[..n])
    decreases |specs| - n
  {
    if n < |specs| {
      assert specs[..n + 1][..n] == specs[..n];
      BuildFiltersStops(re, specs, n + 1);
    } else {
      assert specs[..n] == specs;
    }
  }

  // ---------------------------------------------------------------------
  // Applying a chain

  /** `f.reg.ReplaceAll(data, f.repl)`. */
  function ApplyFilter(re: Engine, f: Filter, data: GoString): GoString
  {
    re.replaceAll(f.pattern, data, f.repl)
  }

  /** The left fold of `ReplaceAll` over a chain of filters. */
  function Chain(re: Engine, fs: seq<Filter>, data: GoString): GoString
    decreases |fs|
  {
    if fs == [] then data else Chain(re, fs[1..], ApplyFilter(re, fs[0], data))
  }

  /** Running two chains one after the other is running their concatenation. */
  lemma {:induction false} ChainAppend(re: Engine, fs: seq<Filter>, gs: seq<Filter>, data: GoString)
    ensures Chain(re, fs + gs, data) == Chain(re, gs, Chain(re, fs, data))
    decreases |fs|
  {
    if fs == [] {
      assert fs + gs == gs;
    } else {
      assert (fs + gs)[0] == fs[0];
      assert (fs + gs)[1..] == fs[1..] + gs;
      ChainAppend(re, fs[1..], gs, ApplyFilter(re, fs[0], data));
    }
  }

  /** Data that no filter of the chain changes passes through unchanged. */
  lemma {:induction false} ChainPassesUntouched(re: Engine, fs: seq<Filter>, data: GoString)
    requires forall k :: 0 <= k < |fs| ==> ApplyFilter(re, fs[k], data) == data
    ensures Chain(re, fs, data) == data
    decreases |fs|
  {
    if fs != [] {
      assert ApplyFilter(re, fs[0], data) == data;
      forall k | 0 <= k < |fs[1..]|
        ensures ApplyFilter(re, fs[1..][k], data) == data
      {
        assert fs[1..][k] == fs[k + 1];
      }
      ChainPassesUntouched(re, fs[1..], data);
    }
  }

  /** Order is observable: with a library in which a pattern matches only
      the whole input equal to it and unmatched input is left alone, a filter
      whose replacement the next filter matches gives a different result than
      the same two filters swapped. */
  lemma ChainOrderMatters(f: Filter, g: Filter, data: GoString)
    requires data == f.pattern && f.repl == g.pattern
    requires g.pattern != f.pattern && g.repl != f.repl
    ensures var re := Engine(p => true, (p, src, repl) => if src == p then repl else src);
      Chain(re, [f, g], data) != Chain(re, [g, f], data)
  {
    var re := Engine(p => true, (p, src, repl) => if src == p then repl else src);
    assert [f, g][1..] == [g];
    assert [g, f][1..] == [f];
    assert Chain(re, [f, g], data) == Chain(re, [g], f.repl) == g.repl;
    assert Chain(re, [g, f], data) == Chain(re, [f], data) == f.repl;
  }

  /** `filterDefault(data)`: run the built-in filters over `data`. */
  method FilterDefault(re: Engine, data: GoString) returns (r: GoString)
    ensures r == Chain(re, DefaultFilters(), data)
  {
    var fs := DefaultFilters();
    r := data;
    for i := 0 to |fs|
      invariant Chain(re, fs, data) == Chain(re, fs[i..], r)
    {
      assert fs[i..][1..] == fs[i + 1..];
      r := ApplyFilter(re, fs[i], r);
    }
  }
}
