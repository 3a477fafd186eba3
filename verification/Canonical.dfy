/** Parameter tokens in recorded paths and locators: `src/artifact/canonical.ts`. */
module Canonical {
  import opened Text

  /** One entry of a parameter record, in `Object.entries` order. */
  datatype Param = Param(name: string, value: string)

  predicate IdentStart(c: char) {
    IsLetter(c) || c == '_'
  }

  predicate IdentChar(c: char) {
    IdentStart(c) || IsDigit(c)
  }

  predicate Identifier(s: string) {
    s != "" && IdentStart(s[0]) && forall c | c in s :: IdentChar(c)
  }

  /** Length of the longest run of identifier characters at the front. */
  function IdentLength(s: string): (n: nat)
    ensures n <= |s|
    ensures forall i | 0 <= i < n :: IdentChar(s[i])
    ensures n < |s| ==> !IdentChar(s[n])
  {
    if s == "" || !IdentChar(s[0]) then 0 else 1 + IdentLength(s[1..])
  }

  /** Stable insertion: `x` goes behind every entry that is at least as long. */
  function InsertLongestFirst(x: Param, sorted: seq<Param>): (r: seq<Param>)
    ensures forall p :: p in r <==> p == x || p in sorted
  {
    if sorted == [] then [x]
    else
      var front, last := sorted[..|sorted| - 1], sorted[|sorted| - 1];
      assert sorted == front + [last];
      if |last.value| >= |x.value| then sorted + [x] else InsertLongestFirst(x, front) + [last]
  }

  function NonEmptyLongestFirst(params: seq<Param>): (r: seq<Param>)
    ensures forall p :: p in r <==> p in params && p.value != ""
  {
    if params == [] then []
    else
      var front, last := params[..|params| - 1], params[|params| - 1];
      assert params == front + [last];
      var rest := NonEmptyLongestFirst(front);
      if last.value == "" then rest else InsertLongestFirst(last, rest)
  }

  /** One replacement after another, in the given order. */
  function ReplaceInTurn(s: string, entries: seq<Param>): string
    requires forall p | p in entries :: p.value != ""
  {
    if entries == [] then s
    else
      var last := entries[|entries| - 1];
      ReplaceAll(ReplaceInTurn(s, entries[..|entries| - 1]), last.value, ":" + last.name)
  }

  function Canonical(path: string, params: seq<Param>): string {
    ReplaceInTurn(path, NonEmptyLongestFirst(params))
  }

  method CanonicalizePath(path: string, params: seq<Param>) returns (out: string)
    ensures out == Canonical(path, params)
  {
    out := path;
    var entries := NonEmptyLongestFirst(params);
    for i := 0 to |entries|
      invariant out == ReplaceInTurn(path, entries[..i])
    {
      assert entries[..i + 1][..i] == entries[..i];
      out := ReplaceAll(out, entries[i].value, ":" + entries[i].name);
    }
    assert entries[..|entries|] == entries;
  }

  const MUSTACHE := "{{parameters."

  /** First pass of `expandParams`: the `{{parameters.name}}` form. */
  function ExpandMustache(s: string, inputs: map<string, string>): string
    decreases |s|, inputs
  {
    if s == "" then ""
    else if MUSTACHE <= s && |s| > |MUSTACHE| && IdentStart(s[|MUSTACHE|]) then
      var n := IdentLength(s[|MUSTACHE|..]);
      var end := |MUSTACHE| + n;
      if "}}" <= s[end..] then
        var name := s[|MUSTACHE|..end];
        (if name in inputs then inputs[name] else s[..end + 2]) + ExpandMustache(s[end + 2..], inputs)
      else [s[0]] + ExpandMustache(s[1..], inputs)
    else [s[0]] + ExpandMustache(s[1..], inputs)
  }

  /** Second pass: the `:name` form; an unknown name stays as it is. */
  function ExpandColon(s: string, inputs: map<string, string>): string
    decreases |s|, inputs
  {
    if s == "" then ""
    else if s[0] == ':' && |s| > 1 && IdentStart(s[1]) then
      var n := IdentLength(s[1..]);
      var name := s[1..1 + n];
      (if name in inputs then inputs[name] else s[..1 + n]) + ExpandColon(s[1 + n..], inputs)
    else [s[0]] + ExpandColon(s[1..], inputs)
  }

  function ExpandParams(template: string, inputs: map<string, string>): string {
    ExpandColon(ExpandMustache(template, inputs), inputs)
  }

  /** A text in which replay sees no token. */
  predicate TokenFree(s: string) {
    && (forall i | 0 <= i < |s| - 1 :: s[i] == ':' ==> !IdentStart(s[i + 1]))
    && (forall i | 0 <= i < |s| - 1 :: s[i] == '{' ==> s[i + 1] != '{')
  }

  lemma {:induction false} TokenFreeExpandsToItself(s: string, inputs: map<string, string>)
    requires TokenFree(s)
    ensures ExpandMustache(s, inputs) == s && ExpandColon(s, inputs) == s && ExpandParams(s, inputs) == s
    decreases |s|
  {
    if s != "" {
      forall i | 0 <= i < |s[1..]| - 1
        ensures s[1..][i] == ':' ==> !IdentStart(s[1..][i + 1])
        ensures s[1..][i] == '{' ==> s[1..][i + 1] != '{'
      {
        assert s[1..][i] == s[i + 1] && s[1..][i + 1] == s[(i + 1) + 1];
      }
      TokenFreeExpandsToItself(s[1..], inputs);
      assert MUSTACHE[0] == '{' && MUSTACHE[1] == '{';
      assert |s| > 1 && s[0] == '{' ==> s[0 + 1] != '{';
      assert |s| > 1 && s[0] == ':' ==> !IdentStart(s[0 + 1]);
      assert s == [s[0]] + s[1..];
    }
  }

  lemma {:induction false} IdentLengthOfName(name: string, rest: string)
    requires (forall c | c in name :: IdentChar(c)) && (rest != "" ==> !IdentChar(rest[0]))
    ensures IdentLength(name + rest) == |name|
  {
    if name == "" {
      assert name + rest == rest;
    } else {
      IdentLengthOfName(name[1..], rest);
      assert (name + rest)[1..] == name[1..] + rest;
    }
  }

  /** What one token contributes to an expansion. */
  function TokenValue(name: string, inputs: map<string, string>): string {
    if name in inputs then inputs[name] else ":" + name
  }

  lemma TokenThenRest(name: string, rest: string, inputs: map<string, string>)
    requires Identifier(name) && (rest != "" ==> !IdentChar(rest[0]))
    ensures ExpandColon(":" + name + rest, inputs) == TokenValue(name, inputs) + ExpandColon(rest, inputs)
  {
    var s := ":" + name + rest;
    assert s[1..] == name + rest;
    IdentLengthOfName(name, rest);
    assert s[1..1 + |name|] == name && s[..1 + |name|] == ":" + name && s[1 + |name|..] == rest;
  }

  /** A token on its own expands to its parameter's value. */
  lemma TokenExpandsToItsValue(name: string, inputs: map<string, string>)
    requires Identifier(name) && name in inputs
    ensures ExpandColon(":" + name, inputs) == inputs[name]
    ensures ExpandParams(":" + name, inputs) == inputs[name]
  {
    TokenThenRest(name, "", inputs);
    assert ":" + name + "" == ":" + name;
    MustacheNeedsABrace(":" + name, inputs);
  }

  lemma {:induction false} MustacheNeedsABrace(s: string, inputs: map<string, string>)
    requires '{' !in s
    ensures ExpandMustache(s, inputs) == s
    decreases |s|
  {
    if s != "" {
      assert MUSTACHE[0] == '{';
      MustacheNeedsABrace(s[1..], inputs);
      assert s == [s[0]] + s[1..];
    }
  }

  // ----- Paths as sequences of segments -----

  function Segments(path: string): (r: seq<string>)
    ensures |r| >= 1
    ensures forall i | 0 <= i < |r| :: '/' !in r[i] && forall c | c in r[i] :: c in path
  {
    if path == "" then [""]
    else
      var rest := Segments(path[1..]);
      if path[0] == '/' then [""] + rest else [[path[0]] + rest[0]] + rest[1..]
  }

  function Join(segs: seq<string>): string
    requires |segs| >= 1
  {
    if |segs| == 1 then segs[0] else segs[0] + ("/" + Join(segs[1..]))
  }

  lemma {:induction false} JoinUndoesSegments(path: string)
    ensures Join(Segments(path)) == path
  {
    if path != "" {
      JoinUndoesSegments(path[1..]);
      var rest := Segments(path[1..]);
      if path[0] == '/' {
        assert ([""] + rest)[1..] == rest;
      } else {
        assert ([[path[0]] + rest[0]] + rest[1..])[1..] == rest[1..];
      }
      assert path == [path[0]] + path[1..];
    }
  }

  lemma PrefixAcrossSlash(a: string, b: string, v: string)
    requires '/' !in v
    ensures v <= a + ("/" + b) <==> v <= a
  {
    var s := a + ("/" + b);
    assert s[|a|] == '/';
    assert v <= a ==> v <= s;
  }

  lemma {:induction false} ReplaceAcrossSlash(a: string, b: string, v: string, r: string)
    requires v != "" && '/' !in v
    ensures ReplaceAll(a + ("/" + b), v, r) == ReplaceAll(a, v, r) + ("/" + ReplaceAll(b, v, r))
    decreases |a|
  {
    var s := a + ("/" + b);
    PrefixAcrossSlash(a, b, v);
    if a == "" {
      assert s[1..] == b;
    } else if v <= a {
      assert s[|v|..] == a[|v|..] + ("/" + b);
      ReplaceAcrossSlash(a[|v|..], b, v, r);
    } else {
      assert s[1..] == a[1..] + ("/" + b);
      ReplaceAcrossSlash(a[1..], b, v, r);
    }
  }

  lemma CutAtToken(a: string) returns (name: string, rest: string)
    requires |a| > 1 && a[0] == ':' && IdentStart(a[1])
    ensures Identifier(name) && (rest != "" ==> !IdentChar(rest[0])) && a == ":" + name + rest
  {
    var n := IdentLength(a[1..]);
    name, rest := a[1..1 + n], a[1 + n..];
    assert a == [a[0]] + name + rest;
  }

  lemma Assoc4(a: string, b: string, c: string, d: string)
    ensures ((a + b) + c) + d == a + b + (c + d)
  {
  }

  lemma TokenAcrossSlash(name: string, rest: string, b: string, inputs: map<string, string>)
    requires Identifier(name) && (rest != "" ==> !IdentChar(rest[0]))
    requires ExpandColon(rest + ("/" + b), inputs) == ExpandColon(rest, inputs) + ("/" + ExpandColon(b, inputs))
    ensures ExpandColon(":" + name + rest + ("/" + b), inputs)
         == ExpandColon(":" + name + rest, inputs) + ("/" + ExpandColon(b, inputs))
  {
    hide ExpandColon;
    TokenThenRest(name, rest, inputs);
    TokenThenRest(name, rest + ("/" + b), inputs);
    Assoc4(":", name, rest, "/" + b);
  }

  lemma PlainAcrossSlash(a: string, b: string, inputs: map<string, string>)
    requires a != "" && !(a[0] == ':' && |a| > 1 && IdentStart(a[1]))
    requires ExpandColon(a[1..] + ("/" + b), inputs) == ExpandColon(a[1..], inputs) + ("/" + ExpandColon(b, inputs))
    ensures ExpandColon(a + ("/" + b), inputs) == ExpandColon(a, inputs) + ("/" + ExpandColon(b, inputs))
  {
    hide ExpandColon;
    var s := a + ("/" + b);
    assert s[0] == a[0] && s[1..] == a[1..] + ("/" + b);
    assert s[1] == if |a| == 1 then '/' else a[1];
    PlainStep(a, inputs);
    PlainStep(s, inputs);
    Assoc3([a[0]], ExpandColon(a[1..], inputs), "/" + ExpandColon(b, inputs));
  }

  lemma Assoc3(a: string, b: string, c: string)
    ensures a + (b + c) == (a + b) + c
  {
  }

  lemma PlainStep(s: string, inputs: map<string, string>)
    requires s != "" && !(s[0] == ':' && |s| > 1 && IdentStart(s[1]))
    ensures ExpandColon(s, inputs) == [s[0]] + ExpandColon(s[1..], inputs)
  {
  }

  lemma {:induction false} ExpandAcrossSlash(a: string, b: string, inputs: map<string, string>)
    ensures ExpandColon(a + ("/" + b), inputs) == ExpandColon(a, inputs) + ("/" + ExpandColon(b, inputs))
    decreases |a|
  {
    if a == "" {
      assert a + ("/" + b) == "/" + b && ("/" + b)[1..] == b;
      PlainStep("/" + b, inputs);
    } else {
      hide ExpandColon;
      if a[0] == ':' && |a| > 1 && IdentStart(a[1]) {
        var name, rest := CutAtToken(a);
        ExpandAcrossSlash(rest, b, inputs);
        TokenAcrossSlash(name, rest, b, inputs);
      } else {
        ExpandAcrossSlash(a[1..], b, inputs);
        PlainAcrossSlash(a, b, inputs);
      }
    }
  }

  /** `out` is `segs` with some segments replaced by the token of a parameter carrying that very text. */
  ghost predicate Tokenized(out: seq<string>, segs: seq<string>, params: seq<Param>) {
    && |out| == |segs|
    && forall i | 0 <= i < |segs| :: out[i] == segs[i] || TokenFor(out[i], segs[i], params)
  }

  ghost predicate TokenFor(token: string, text: string, params: seq<Param>) {
    exists p :: p in params && p.value == text && token == ":" + p.name
  }

  ghost predicate Unambiguous(path: string, params: seq<Param>) {
    && ':' !in path && '{' !in path
    && (forall p | p in params :: Identifier(p.name))
    && (forall p | p in params && p.value != "" ::
          && ':' !in p.value && '/' !in p.value
          && (forall seg | seg in Segments(path) :: Occurs(p.value, seg) ==> seg == p.value)
          && (forall q | q in params :: !Occurs(p.value, q.name)))
  }

  /** What one replacement does to a single segment. */
  lemma ReplaceInSegment(token: string, text: string, p: Param, path: string, params: seq<Param>)
    requires Unambiguous(path, params) && text in Segments(path) && p in params && p.value != ""
    requires token == text || TokenFor(token, text, params)
    ensures var r := ReplaceAll(token, p.value, ":" + p.name); r == text || TokenFor(r, text, params)
  {
    if token == text && text == p.value {
      assert text[|text|..] == "" && text <= text;
      assert ReplaceAll(token, p.value, ":" + p.name) == ":" + p.name + "" == ":" + p.name;
    } else if token == text {
      ReplaceAbsent(token, p.value, ":" + p.name);
    } else {
      var q :| q in params && q.value == text && token == ":" + q.name;
      assert token == "" + [':'] + q.name;
      OccursAcross(p.value, "", ':', q.name);
      ReplaceAbsent(token, p.value, ":" + p.name);
    }
  }

  lemma {:induction false} ReplaceInJoin(out: seq<string>, segs: seq<string>, p: Param, path: string, params: seq<Param>)
    returns (next: seq<string>)
    requires Unambiguous(path, params) && p in params && p.value != ""
    requires |segs| >= 1 && (forall seg | seg in segs :: seg in Segments(path)) && Tokenized(out, segs, params)
    ensures Tokenized(next, segs, params) && ReplaceAll(Join(out), p.value, ":" + p.name) == Join(next)
    decreases |segs|
  {
    var r := ReplaceAll(out[0], p.value, ":" + p.name);
    ReplaceInSegment(out[0], segs[0], p, path, params);
    if |segs| == 1 {
      next := [r];
    } else {
      var rest := ReplaceInJoin(out[1..], segs[1..], p, path, params);
      next := [r] + rest;
      ReplaceAcrossSlash(out[0], Join(out[1..]), p.value, ":" + p.name);
      assert next[1..] == rest;
    }
  }

  lemma {:induction false} CanonicalIsTokenized(path: string, entries: seq<Param>, params: seq<Param>)
    returns (out: seq<string>)
    requires Unambiguous(path, params) && forall p | p in entries :: p in params && p.value != ""
    ensures Tokenized(out, Segments(path), params) && ReplaceInTurn(path, entries) == Join(out)
    decreases |entries|
  {
    if entries == [] {
      out := Segments(path);
      JoinUndoesSegments(path);
    } else {
      var front, last := entries[..|entries| - 1], entries[|entries| - 1];
      var before := CanonicalIsTokenized(path, front, params);
      out := ReplaceInJoin(before, Segments(path), last, path, params);
    }
  }

  /** Any record in which every parameter reads back its own value. */
  ghost predicate Supplies(inputs: map<string, string>, params: seq<Param>) {
    forall p | p in params :: p.name in inputs && inputs[p.name] == p.value
  }

  lemma {:induction false} ExpandTokenized(out: seq<string>, segs: seq<string>, path: string, params: seq<Param>,
      inputs: map<string, string>)
    requires |segs| >= 1 && (forall seg | seg in segs :: seg in Segments(path))
    requires Unambiguous(path, params) && Supplies(inputs, params) && Tokenized(out, segs, params)
    ensures ExpandColon(Join(out), inputs) == Join(segs)
    ensures '{' !in Join(out)
    decreases |segs|
  {
    hide ExpandColon, ExpandMustache;
    if out[0] == segs[0] {
      assert segs[0] in Segments(path);
      TokenFreeExpandsToItself(segs[0], inputs);
    } else {
      var p :| p in params && p.value == segs[0] && out[0] == ":" + p.name;
      TokenExpandsToItsValue(p.name, inputs);
    }
    if |segs| > 1 {
      ExpandTokenized(out[1..], segs[1..], path, params, inputs);
      ExpandAcrossSlash(out[0], Join(out[1..]), inputs);
    }
  }

  /** Replay's expansion is the inverse of the recorder's canonical form. */
  lemma ExpandUndoesCanonicalize(path: string, params: seq<Param>, inputs: map<string, string>)
    requires Unambiguous(path, params) && Supplies(inputs, params)
    ensures ExpandParams(Canonical(path, params), inputs) == path
  {
    var out := CanonicalIsTokenized(path, NonEmptyLongestFirst(params), params);
    ExpandTokenized(out, Segments(path), path, params, inputs);
    MustacheNeedsABrace(Join(out), inputs);
    JoinUndoesSegments(path);
  }

  /** Inside a longer segment a value may run into what follows it: the token then reads as another. */
  lemma ValueInsideASegment()
    ensures var params := [Param("id", "5")];
            ExpandParams(Canonical("/5x", params), map["id" := "5"]) == "/:idx"
  {
    var p := Param("id", "5");
    var none: seq<Param> := [];
    assert [p][..0] == none;
    assert NonEmptyLongestFirst([p]) == [p];
    assert "/5x"[1..] == "5x" && "5x"[1..] == "x" && "x"[1..] == "";
    assert ReplaceAll("x", "5", ":id") == "x";
    assert ReplaceAll("5x", "5", ":id") == ":id" + "x" == ":idx";
    assert ReplaceAll("/5x", "5", ":id") == "/" + ":idx" == "/:idx";
    assert ReplaceInTurn("/5x", none) == "/5x";
    assert Canonical("/5x", [p]) == "/:idx";
    MustacheNeedsABrace("/:idx", map["id" := "5"]);
    TokenThenRest("idx", "", map["id" := "5"]);
    assert ":idx" == ":" + "idx" + "";
    PlainStep("/:idx", map["id" := "5"]);
    assert "/:idx"[1..] == ":idx";
  }

  lemma OneMoreInTurn(s: string, front: seq<Param>, last: Param)
    requires forall p | p in front + [last] :: p.value != ""
    ensures forall p | p in front :: p in front + [last]
    ensures ReplaceInTurn(s, front + [last]) == ReplaceAll(ReplaceInTurn(s, front), last.value, ":" + last.name)
  {
    assert (front + [last])[..|front|] == front;
  }

  lemma ReplacedInsideTheToken()
    ensures ReplaceAll(ReplaceAll("/12", "12", ":id"), "id", ":k") == "/::k"
  {
    assert "/12"[1..] == "12" && "12"[2..] == "";
    assert ReplaceAll("12", "12", ":id") == ":id" + "" == ":id";
    assert ReplaceAll("/12", "12", ":id") == "/" + ":id" == "/:id";
    assert "/:id"[1..] == ":id" && ":id"[1..] == "id" && "id"[2..] == "";
    assert ReplaceAll("id", "id", ":k") == ":k" + "" == ":k";
    assert ReplaceAll(":id", "id", ":k") == ":" + ":k" == "::k";
    assert ReplaceAll("/:id", "id", ":k") == "/" + "::k" == "/::k";
  }

  /** A value that occurs in a parameter name may be replaced inside a token already written. */
  lemma ValueInsideAName()
    ensures var params := [Param("id", "12"), Param("k", "id")];
            ExpandParams(Canonical("/12", params), map["id" := "12", "k" := "id"]) == "/:id"
  {
    hide ReplaceAll, ExpandMustache, ExpandColon;
    var p, q := Param("id", "12"), Param("k", "id");
    var inputs := map["id" := "12", "k" := "id"];
    var none: seq<Param> := [];
    assert [p][..0] == none && [p, q][..1] == [p];
    assert NonEmptyLongestFirst([p]) == [p];
    assert InsertLongestFirst(q, [p]) == [p, q];
    assert ReplaceInTurn("/12", none) == "/12";
    assert NonEmptyLongestFirst([p, q]) == [p, q] == [p] + [q];
    OneMoreInTurn("/12", none, p);
    OneMoreInTurn("/12", [p], q);
    assert none + [p] == [p];
    ReplacedInsideTheToken();
    MustacheNeedsABrace("/::k", inputs);
    TokenExpandsToItsValue("k", inputs);
    PlainStep("/::k", inputs);
    PlainStep("::k", inputs);
    assert "/::k"[1..] == "::k" && "::k"[1..] == ":k" == ":" + "k";
    assert ExpandColon("::k", inputs) == ":" + "id" == ":id";
    assert ExpandColon("/::k", inputs) == "/" + ":id" == "/:id";
  }
}
