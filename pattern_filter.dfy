/**
  The regular-expression filter of the repository selection step. Pattern
  compilation and full-string matching (`java.util.regex`) are kept
  abstract: a `RegexEngine` is a record of uninterpreted functions.
 */
module PatternFilter {

  /** `java.util.regex` as seen from the wizard:
      - `compiles(p)`: `Pattern.compile(p)` does not throw;
      - `fullMatch(p, s)`: `regex.matcher(s).matches()` for the compiled `p`;
      - `errorMessage(p)`: `getMessage()` of the exception `compile(p)` throws;
      - `errorText(p)`: `toString()` of that exception. */
  datatype RegexEngine = RegexEngine(
    compiles: string -> bool,
    fullMatch: (string, string) -> bool,
    errorMessage: string -> string,
    errorText: string -> string)

  /** The names the pattern fully matches, in their original order. */
  function Filter(regex: RegexEngine, pattern: string, names: seq<string>): seq<string>
  {
    if |names| == 0 then []
    else
      var last := names[|names| - 1];
      Filter(regex, pattern, names[..|names| - 1]) + (if regex.fullMatch(pattern, last) then [last] else [])
  }

  /** `idx` maps each element of `xs` to an element of `ys` holding the same
      value, at strictly increasing positions. */
  ghost predicate IsEmbedding(idx: seq<nat>, xs: seq<string>, ys: seq<string>)
  {
    && |idx| == |xs|
    && (forall i :: 0 <= i < |idx| ==> idx[i] < |ys| && xs[i] == ys[idx[i]])
    && (forall i, j :: 0 <= i < j < |idx| ==> idx[i] < idx[j])
  }

  /** `xs` is obtained from `ys` by deleting elements without reordering. */
  ghost predicate IsSubsequence(xs: seq<string>, ys: seq<string>)
  {
    exists idx :: IsEmbedding(idx, xs, ys)
  }

  /** The positions in `names` that the filtered names come from. */
  lemma {:induction false} FilterEmbedding(regex: RegexEngine, pattern: string, names: seq<string>)
    returns (idx: seq<nat>)
    ensures IsEmbedding(idx, Filter(regex, pattern, names), names)
  {
    if |names| == 0 {
      idx := [];
    } else {
      var init := names[..|names| - 1];
      var last := names[|names| - 1];
      var head := FilterEmbedding(regex, pattern, init);
      if regex.fullMatch(pattern, last) {
        idx := head + [|init|];
      } else {
        idx := head;
      }
    }
  }

  /** Filtering keeps the input's relative order: the result is a subsequence of it. */
  lemma FilterIsSubsequence(regex: RegexEngine, pattern: string, names: seq<string>)
    ensures IsSubsequence(Filter(regex, pattern, names), names)
  {
    var idx := FilterEmbedding(regex, pattern, names);
  }

  /** A name is kept exactly when it occurs in the input and the pattern fully matches it. */
  lemma {:induction false} FilterMembership(regex: RegexEngine, pattern: string, names: seq<string>, name: string)
    ensures name in Filter(regex, pattern, names) <==> name in names && regex.fullMatch(pattern, name)
  {
    if |names| > 0 {
      var init := names[..|names| - 1];
      FilterMembership(regex, pattern, init, name);
      assert names == init + [names[|names| - 1]];
    }
  }

  /** Every occurrence of a matching name is kept and no occurrence of
      another name is: with the subsequence property, this determines the result. */
  lemma {:induction false} FilterOccurrences(regex: RegexEngine, pattern: string, names: seq<string>, name: string)
    ensures multiset(Filter(regex, pattern, names))[name]
         == if regex.fullMatch(pattern, name) then multiset(names)[name] else 0
  {
    if |names| > 0 {
      var init := names[..|names| - 1];
      FilterOccurrences(regex, pattern, init, name);
      assert names == init + [names[|names| - 1]];
    }
  }

  /** Filtering an already filtered list with the same pattern changes nothing. */
  lemma {:induction false} FilterIdempotent(regex: RegexEngine, pattern: string, names: seq<string>)
    ensures Filter(regex, pattern, Filter(regex, pattern, names)) == Filter(regex, pattern, names)
  {
    if |names| > 0 {
      var init := names[..|names| - 1];
      var last := names[|names| - 1];
      FilterIdempotent(regex, pattern, init);
      var once := Filter(regex, pattern, init);
      if regex.fullMatch(pattern, last) {
        var twice := once + [last];
        assert twice[..|twice| - 1] == once;
        assert Filter(regex, pattern, twice) == Filter(regex, pattern, once) + [last];
      } else {
        assert Filter(regex, pattern, names) == once;
      }
    }
  }

  /** The loop of `execute`: walks the names and appends each one the pattern fully matches. */
  method CollectMatching(regex: RegexEngine, pattern: string, names: seq<string>)
    returns (repositories: seq<string>)
    ensures repositories == Filter(regex, pattern, names)
  {
    repositories := [];
    var i := 0;
    while i < |names|
      invariant 0 <= i <= |names|
      invariant repositories == Filter(regex, pattern, names[..i])
    {
      assert names[..i + 1][..i] == names[..i];
      if regex.fullMatch(pattern, names[i]) {
        repositories := repositories + [names[i]];
      }
      i := i + 1;
    }
    assert names[..|names|] == names;
  }
}
