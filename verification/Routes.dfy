/** Route patterns: `src/policy/routes.ts`. */
module Routes {
  import opened Text
  import opened Canonical

  // ----- What a pattern means -----

  /** `**` stands for any run of segments, `*` for any one, anything else for itself. */
  predicate Fits(token: string, piece: seq<string>) {
    token == "**" || (|piece| == 1 && (token == "*" || token == piece[0]))
  }

  /** The segments can be cut into one fitting piece per token, in order. */
  ghost predicate CutsInto(pat: seq<string>, segs: seq<string>, cuts: seq<nat>) {
    && |cuts| == |pat| + 1 && cuts[0] == 0 && cuts[|pat|] == |segs|
    && forall i: nat | i < |pat| :: PieceFits(pat, segs, cuts, i)
  }

  predicate PieceFits(pat: seq<string>, segs: seq<string>, cuts: seq<nat>, i: nat)
    requires i < |pat| && |cuts| == |pat| + 1
  {
    cuts[i] <= cuts[i + 1] <= |segs| && Fits(pat[i], segs[cuts[i]..cuts[i + 1]])
  }

  ghost predicate Matches(pat: seq<string>, segs: seq<string>) {
    exists cuts :: CutsInto(pat, segs, cuts)
  }

  /** The same, one token at a time. */
  ghost predicate Covers(pat: seq<string>, segs: seq<string>)
    decreases |pat|, 1
  {
    if pat == [] then segs == []
    else exists k: nat :: CoversFrom(pat, segs, k)
  }

  ghost predicate CoversFrom(pat: seq<string>, segs: seq<string>, k: nat)
    requires pat != []
    decreases |pat|, 0
  {
    k <= |segs| && Fits(pat[0], segs[..k]) && Covers(pat[1..], segs[k..])
  }

  lemma {:induction false} CutsCover(pat: seq<string>, segs: seq<string>, cuts: seq<nat>)
    requires CutsInto(pat, segs, cuts)
    ensures Covers(pat, segs)
    decreases |pat|
  {
    if pat != [] {
      var k := cuts[1];
      var rest := seq(|pat|, i requires 0 <= i < |pat| => if cuts[i + 1] >= k then cuts[i + 1] - k else 0);
      CutsRise(pat, segs, cuts);
      assert PieceFits(pat, segs, cuts, 0) && segs[cuts[0]..cuts[1]] == segs[..k];
      forall i: nat | i < |pat| - 1
        ensures PieceFits(pat[1..], segs[k..], rest, i)
      {
        assert PieceFits(pat, segs, cuts, i + 1);
        assert segs[k..][rest[i]..rest[i + 1]] == segs[cuts[i + 1]..cuts[i + 2]];
      }
      CutsCover(pat[1..], segs[k..], rest);
      assert CoversFrom(pat, segs, k);
    }
  }

  lemma {:induction false} CutsRise(pat: seq<string>, segs: seq<string>, cuts: seq<nat>)
    requires CutsInto(pat, segs, cuts) && pat != []
    ensures forall i | 1 <= i <= |pat| :: cuts[1] <= cuts[i]
  {
    var i := 1;
    while i < |pat|
      invariant 1 <= i <= |pat|
      invariant forall j | 1 <= j <= i :: cuts[1] <= cuts[j]
    {
      assert PieceFits(pat, segs, cuts, i);
      i := i + 1;
    }
  }

  lemma {:induction false} CoversCut(pat: seq<string>, segs: seq<string>) returns (cuts: seq<nat>)
    requires Covers(pat, segs)
    ensures CutsInto(pat, segs, cuts)
    decreases |pat|
  {
    if pat == [] {
      cuts := [0];
    } else {
      var k: nat :| CoversFrom(pat, segs, k);
      var rest := CoversCut(pat[1..], segs[k..]);
      cuts := [0] + seq(|rest|, i requires 0 <= i < |rest| => rest[i] + k);
      hide Covers;
      forall i: nat | i < |pat|
        ensures PieceFits(pat, segs, cuts, i)
      {
        if i == 0 {
          assert segs[cuts[0]..cuts[1]] == segs[..k];
        } else {
          assert PieceFits(pat[1..], segs[k..], rest, i - 1);
          assert segs[cuts[i]..cuts[i + 1]] == segs[k..][rest[i - 1]..rest[i]];
        }
      }
    }
  }

  lemma CoveringIsMatching(pat: seq<string>, segs: seq<string>)
    ensures Covers(pat, segs) <==> Matches(pat, segs)
  {
    if Covers(pat, segs) {
      var cuts := CoversCut(pat, segs);
    }
    if cuts :| CutsInto(pat, segs, cuts) {
      CutsCover(pat, segs, cuts);
    }
  }

  // ----- The matcher -----

  /** A pattern whose first token is not `**` covers one segment at a time. */
  lemma OneSegmentAtATime(pat: seq<string>, segs: seq<string>)
    requires pat != [] && pat[0] != "**"
    ensures Covers(pat, segs) <==> segs != [] && (pat[0] == "*" || pat[0] == segs[0]) && Covers(pat[1..], segs[1..])
  {
    if segs != [] {
      assert segs[..1] == [segs[0]];
      assert Fits(pat[0], segs[..1]) && Covers(pat[1..], segs[1..]) ==> CoversFrom(pat, segs, 1);
    }
  }

  lemma AnyRunOfSegments(pat: seq<string>, segs: seq<string>)
    requires pat != [] && pat[0] == "**"
    ensures Covers(pat, segs) <==> exists k: nat :: k <= |segs| && Covers(pat[1..], segs[k..])
  {
    if k: nat :| k <= |segs| && Covers(pat[1..], segs[k..]) {
      assert CoversFrom(pat, segs, k);
    }
  }

  lemma {:induction false} NothingLeft(pat: seq<string>, none: seq<string>)
    requires none == []
    ensures Covers(pat, none) <==> forall t | t in pat :: t == "**"
  {
    if pat != [] {
      hide Covers;
      NothingLeft(pat[1..], none);
      assert forall t :: t in pat <==> t == pat[0] || t in pat[1..];
      if pat[0] == "**" {
        AnyRunOfSegments(pat, none);
        assert none[0..] == none;
      } else {
        OneSegmentAtATime(pat, none);
        assert pat[0] in pat;
      }
    }
  }

  lemma StarsTakeAll(pat: seq<string>, segs: seq<string>)
    requires pat == ["**"]
    ensures Covers(pat, segs)
  {
    assert segs[|segs|..] == [];
    assert Covers(pat[1..], segs[|segs|..]);
    AnyRunOfSegments(pat, segs);
  }

  /** `matchSegs`: true exactly when the segments can be cut to fit, whatever wildcards the pattern has. */
  method MatchSegs(pat: seq<string>, segs: seq<string>) returns (r: bool)
    ensures r <==> Matches(pat, segs)
    decreases |pat|, 1
  {
    CoveringIsMatching(pat, segs);
    var i, j := 0, 0;
    assert pat[0..] == pat && segs[0..] == segs;
    while i < |pat| && j < |segs|
      invariant i <= |pat| && j <= |segs|
      invariant Covers(pat, segs) <==> Covers(pat[i..], segs[j..])
    {
      var token := pat[i];
      if token == "**" {
        if i == |pat| - 1 {
          StarsTakeAll(pat[i..], segs[j..]);
          return true;
        }
        AnyRunOfSegments(pat[i..], segs[j..]);
        var found := AnyCut(pat, segs, i, j);
        return found;
      }
      OneSegmentAtATime(pat[i..], segs[j..]);
      if token == "*" || token == segs[j] {
        assert pat[i..][1..] == pat[i + 1..] && segs[j..][1..] == segs[j + 1..];
        i := i + 1;
        j := j + 1;
        continue;
      }
      return false;
    }
    if i == |pat| {
      assert pat[i..] == [];
    } else {
      assert segs[j..] == [];
      NothingLeft(pat[i..], segs[j..]);
    }
    ghost var reached := i;
    while i < |pat| && pat[i] == "**"
      invariant reached <= i <= |pat|
      invariant forall k | reached <= k < i :: pat[k] == "**"
    {
      i := i + 1;
    }
    assert i < |pat| ==> pat[i] in pat[reached..];
    return i == |pat| && j == |segs|;
  }

  /** The inner loop: some suffix of the segments matches what follows the `**` at `i`. */
  method AnyCut(pat: seq<string>, segs: seq<string>, i: nat, j: nat) returns (found: bool)
    requires i < |pat| && j <= |segs|
    ensures found <==> exists k: nat :: k <= |segs[j..]| && Covers(pat[i..][1..], segs[j..][k..])
    decreases |pat|, 0
  {
    assert pat[i..][1..] == pat[i + 1..];
    var k := j;
    while k <= |segs|
      invariant j <= k <= |segs| + 1
      invariant forall n: nat | n < k - j :: !Covers(pat[i + 1..], segs[j..][n..])
    {
      CoveringIsMatching(pat[i + 1..], segs[k..]);
      assert segs[j..][k - j..] == segs[k..];
      var matched := MatchSegs(pat[i + 1..], segs[k..]);
      if matched {
        return true;
      }
      k := k + 1;
    }
    return false;
  }

  // ----- Paths -----

  /** `replace(/\/+$/, "")` */
  function WithoutTrailing(path: string): string {
    if path != "" && path[|path| - 1] == '/' then WithoutTrailing(path[..|path| - 1]) else path
  }

  function NormalizePath(path: string): string {
    if path == "" || path == "/" then "/"
    else
      var trimmed := WithoutTrailing(path);
      if "/" <= trimmed then trimmed else "/" + trimmed
  }

  function NonEmpty(segs: seq<string>): seq<string> {
    if segs == [] then [] else (if segs[0] == "" then [] else [segs[0]]) + NonEmpty(segs[1..])
  }

  function SplitPath(path: string): seq<string> {
    if path == "/" then [] else NonEmpty(Segments(path))
  }

  /** What a path is made of, however many slashes it is written with. */
  function Words(path: string): seq<string> {
    NonEmpty(Segments(path))
  }

  lemma {:induction false} NonEmptyOfConcat(a: seq<string>, b: seq<string>)
    ensures NonEmpty(a + b) == NonEmpty(a) + NonEmpty(b)
  {
    if a == [] {
      assert a + b == b;
    } else {
      hide NonEmpty;
      var ab, rest := a + b, a[1..];
      assert ab[0] == a[0] && ab[1..] == rest + b;
      FirstOrNone(ab);
      FirstOrNone(a);
      NonEmptyOfConcat(rest, b);
      if a[0] != "" {
        Associative([a[0]], NonEmpty(rest), NonEmpty(b));
      } else {
        Associative([], NonEmpty(rest), NonEmpty(b));
      }
    }
  }

  lemma Associative(a: seq<string>, b: seq<string>, c: seq<string>)
    ensures a + (b + c) == (a + b) + c
  {
  }

  lemma FirstOrNone(a: seq<string>)
    requires a != []
    ensures NonEmpty(a) == (if a[0] == "" then [] else [a[0]]) + NonEmpty(a[1..])
  {
  }

  lemma {:induction false} TrailingSlash(path: string)
    ensures Segments(path + "/") == Segments(path) + [""]
  {
    if path == "" {
      assert path + "/" == "/" && "/"[1..] == "";
    } else {
      TrailingSlash(path[1..]);
      assert (path + "/")[1..] == path[1..] + "/";
    }
  }

  lemma {:induction false} TrailingSlashesAreNoWords(path: string)
    ensures Words(WithoutTrailing(path)) == Words(path)
  {
    if path != "" && path[|path| - 1] == '/' {
      var front := path[..|path| - 1];
      TrailingSlashesAreNoWords(front);
      TrailingSlash(front);
      assert front + "/" == path;
      NonEmptyOfConcat(Segments(front), [""]);
    }
  }

  /** Normalising and splitting finds the words, so slashes in front, behind or doubled do not matter. */
  lemma SplittingFindsTheWords(path: string)
    ensures SplitPath(NormalizePath(path)) == Words(path)
  {
    TrailingSlashesAreNoWords(path);
    var trimmed := WithoutTrailing(path);
    var slashed := "/" + trimmed;
    assert slashed[1..] == trimmed;
    assert Segments(slashed) == [""] + Segments(trimmed);
    NonEmptyOfConcat([""], Segments(trimmed));
    assert Words("/") == [] && Words("") == [] by {
      assert "/"[1..] == "";
      assert Segments("/") == ["", ""];
    }
  }

  datatype RouteRule = RouteRule(verb: string, path: string)

  predicate MatchMethod(ruleVerb: string, verb: string) {
    ruleVerb == "*" || ruleVerb == "ANY" || Upper(ruleVerb) == Upper(verb)
  }

  /** `matchRoute`: the method and the words of the path. */
  method MatchRoute(rule: RouteRule, verb: string, path: string) returns (r: bool)
    ensures r <==> MatchMethod(rule.verb, verb) && Matches(Words(rule.path), Words(path))
  {
    SplittingFindsTheWords(rule.path);
    SplittingFindsTheWords(path);
    if !MatchMethod(rule.verb, verb) {
      return false;
    }
    r := MatchSegs(SplitPath(NormalizePath(rule.path)), SplitPath(NormalizePath(path)));
  }
}
