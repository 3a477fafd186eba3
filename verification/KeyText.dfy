/**
 * The text behind an idempotency key: `idempotencyKeyFor` in `src/replay/ledger.ts`.
 * Keys are compared by the text that is hashed; strings of JSON follow section 7 of RFC 8259.
 */
module KeyText {
  import opened Text

  // ----- Property order of the picked record -----

  predicate Less(a: string, b: string)
    decreases |a|
  {
    b != "" && (a == "" || a[0] < b[0] || (a[0] == b[0] && Less(a[1..], b[1..])))
  }

  /** A key that JavaScript lists as an array index: canonical decimal below 2^32 - 1. */
  predicate IsIndex(s: string) {
    && AllDigits(s)
    && (s[0] == '0' ==> |s| == 1)
    && (|s| < 10 || (|s| == 10 && Less(s, "4294967295")))
  }

  /** Array indices ascend first, every other key follows in sorted order. */
  predicate Before(a: string, b: string) {
    if IsIndex(a) && IsIndex(b) then |a| < |b| || (|a| == |b| && Less(a, b))
    else if IsIndex(a) || IsIndex(b) then IsIndex(a)
    else Less(a, b)
  }

  function Place(x: string, keys: seq<string>): (r: seq<string>)
    ensures forall k :: k in r <==> k == x || k in keys
  {
    if keys == [] then [x]
    else if x == keys[0] then keys
    else if Before(x, keys[0]) then [x] + keys
    else [keys[0]] + Place(x, keys[1..])
  }

  /** `Object.keys(Object.fromEntries(names.slice().sort()...))` */
  function KeyOrder(names: seq<string>): (r: seq<string>)
    ensures forall k :: k in r <==> k in names
  {
    if names == [] then [] else Place(names[0], KeyOrder(names[1..]))
  }

  lemma {:induction false} LessIsAStrictOrder(a: string, b: string, c: string)
    ensures !Less(a, a)
    ensures Less(a, b) && Less(b, c) ==> Less(a, c)
    ensures a == b || Less(a, b) || Less(b, a)
    decreases |a|
  {
    if a != "" && b != "" && a[0] == b[0] {
      if c != "" {
        LessIsAStrictOrder(a[1..], b[1..], c[1..]);
      } else {
        LessIsAStrictOrder(a[1..], b[1..], "");
      }
      assert a == [a[0]] + a[1..] && b == [b[0]] + b[1..];
    } else if a != "" {
      LessIsAStrictOrder(a[1..], "", "");
    }
  }

  lemma BeforeIsAStrictOrder(a: string, b: string, c: string)
    ensures !Before(a, a)
    ensures Before(a, b) && Before(b, c) ==> Before(a, c)
    ensures a == b || Before(a, b) || Before(b, a)
  {
    LessIsAStrictOrder(a, b, c);
  }

  predicate Ordered(keys: seq<string>) {
    forall i, j | 0 <= i < j < |keys| :: Before(keys[i], keys[j])
  }

  lemma {:induction false} PlaceKeepsOrder(x: string, keys: seq<string>)
    requires Ordered(keys)
    ensures Ordered(Place(x, keys))
  {
    hide Before;
    if keys != [] && x != keys[0] {
      BeforeIsAStrictOrder(x, keys[0], x);
      if Before(x, keys[0]) {
        forall j | 0 <= j < |keys|
          ensures Before(x, keys[j])
        {
          BeforeIsAStrictOrder(x, keys[0], keys[j]);
        }
      } else {
        PlaceKeepsOrder(x, keys[1..]);
        var rest := Place(x, keys[1..]);
        forall j | 0 <= j < |rest|
          ensures Before(keys[0], rest[j])
        {
          assert rest[j] in rest;
        }
      }
    }
  }

  lemma {:induction false} KeyOrderIsOrdered(names: seq<string>)
    ensures Ordered(KeyOrder(names))
  {
    if names != [] {
      KeyOrderIsOrdered(names[1..]);
      PlaceKeepsOrder(names[0], KeyOrder(names[1..]));
    }
  }

  /** An ordered list is determined by its members. */
  lemma {:induction false} OrderedListsAgree(a: seq<string>, b: seq<string>)
    requires Ordered(a) && Ordered(b) && forall k :: k in a <==> k in b
    ensures a == b
    decreases |a|
  {
    hide Before;
    var first := if b == [] then "" else b[0];
    assert b != [] ==> first in b;
    if a != [] {
      assert a[0] in a && a[0] in b;
      assert b[0] in b && b[0] in a;
      var i :| 0 <= i < |b| && b[i] == a[0];
      var j :| 0 <= j < |a| && a[j] == b[0];
      BeforeIsAStrictOrder(a[0], b[0], a[0]);
      assert i == 0;
      forall k
        ensures k in a[1..] <==> k in b[1..]
      {
        BeforeIsAStrictOrder(a[0], a[0], a[0]);
        assert k in a <==> k == a[0] || k in a[1..];
        assert k in b <==> k == b[0] || k in b[1..];
        assert forall m | 1 <= m < |a| :: Before(a[0], a[m]);
        assert forall m | 1 <= m < |b| :: Before(b[0], b[m]);
      }
      OrderedListsAgree(a[1..], b[1..]);
    }
  }

  // ----- JSON text -----

  function Hex(d: nat): char
    requires d < 16
  {
    if d < 10 then '0' + d as char else 'a' + (d - 10) as char
  }

  function EscapeChar(c: char): (r: string)
    ensures r != "" && r[0] != '"'
  {
    if c == '"' then "\\\""
    else if c == '\\' then "\\\\"
    else if c == '\U{0008}' then "\\b"
    else if c == '\U{000C}' then "\\f"
    else if c == '\n' then "\\n"
    else if c == '\r' then "\\r"
    else if c == '\t' then "\\t"
    else if c < ' ' then "\\u00" + [Hex(c as int / 16), Hex(c as int % 16)]
    else [c]
  }

  function Escape(s: string): (r: string)
    ensures s != "" ==> r != "" && r[0] != '"'
  {
    if s == "" then "" else EscapeChar(s[0]) + Escape(s[1..])
  }

  /** `JSON.stringify` of a string. */
  function Quote(s: string): string {
    "\"" + (Escape(s) + "\"")
  }

  function Read(inputs: map<string, string>, name: string): string {
    if name in inputs then inputs[name] else ""
  }

  function Members(keys: seq<string>, inputs: map<string, string>): string {
    if keys == [] then "}"
    else
      Quote(keys[0]) + (":" + (Quote(Read(inputs, keys[0])) + ((if |keys| == 1 then "" else ",") + Members(keys[1..], inputs))))
  }

  function KeyText(id: string, names: seq<string>, inputs: map<string, string>): string {
    id + (":{" + Members(KeyOrder(names), inputs))
  }

  lemma CodesThatAgreeAreEqual(c: char, d: char)
    requires var s, t := EscapeChar(c), EscapeChar(d);
             forall i | 0 <= i < |s| && i < |t| :: s[i] == t[i]
    ensures c == d
  {
    var s, t := EscapeChar(c), EscapeChar(d);
    assert s[0] == t[0];
    assert |s| > 1 && |t| > 1 ==> s[1] == t[1];
    if |s| == 6 && |t| == 6 {
      assert s[4] == Hex(c as int / 16) == t[4] == Hex(d as int / 16);
      assert s[5] == Hex(c as int % 16) == t[5] == Hex(d as int % 16);
    }
  }

  lemma EscapeCharIsAPrefixCode(c: char, x: string, d: char, y: string)
    requires EscapeChar(c) + x == EscapeChar(d) + y
    ensures c == d && x == y
  {
    hide EscapeChar;
    var s, t := EscapeChar(c), EscapeChar(d);
    assert forall i | 0 <= i < |s| && i < |t| :: s[i] == (s + x)[i] == t[i];
    CodesThatAgreeAreEqual(c, d);
    assert x == (s + x)[|s|..] && y == (t + y)[|t|..];
  }

  lemma {:induction false} EscapedTextEndsAtItsQuote(v: string, x: string, w: string, y: string)
    requires Escape(v) + ("\"" + x) == Escape(w) + ("\"" + y)
    ensures v == w && x == y
    decreases |v|
  {
    hide EscapeChar;
    var l, r := Escape(v) + ("\"" + x), Escape(w) + ("\"" + y);
    assert l[0] == if v == "" then '"' else Escape(v)[0];
    assert r[0] == if w == "" then '"' else Escape(w)[0];
    assert v == "" <==> w == "";
    if v == "" {
      assert x == l[1..] && y == r[1..];
    } else {
      assert Escape(v) + ("\"" + x) == EscapeChar(v[0]) + (Escape(v[1..]) + ("\"" + x));
      assert Escape(w) + ("\"" + y) == EscapeChar(w[0]) + (Escape(w[1..]) + ("\"" + y));
      EscapeCharIsAPrefixCode(v[0], Escape(v[1..]) + ("\"" + x), w[0], Escape(w[1..]) + ("\"" + y));
      EscapedTextEndsAtItsQuote(v[1..], x, w[1..], y);
      assert v == [v[0]] + v[1..] && w == [w[0]] + w[1..];
    }
  }

  lemma QuotedTextIsSelfDelimiting(v: string, x: string, w: string, y: string)
    requires Quote(v) + x == Quote(w) + y
    ensures v == w && x == y
  {
    hide Escape;
    assert Quote(v) + x == "\"" + (Escape(v) + ("\"" + x));
    assert Quote(w) + y == "\"" + (Escape(w) + ("\"" + y));
    assert (Quote(v) + x)[1..] == Escape(v) + ("\"" + x);
    assert (Quote(w) + y)[1..] == Escape(w) + ("\"" + y);
    EscapedTextEndsAtItsQuote(v, x, w, y);
  }

  lemma SamePrefix(p: string, x: string, y: string)
    requires p + x == p + y
    ensures x == y
  {
    assert x == (p + x)[|p|..] && y == (p + y)[|p|..];
  }

  lemma {:induction false} MembersAreExact(keys: seq<string>, a: map<string, string>, b: map<string, string>)
    ensures Members(keys, a) == Members(keys, b) <==> forall k | k in keys :: Read(a, k) == Read(b, k)
  {
    hide Quote;
    if keys != [] {
      var k, rest := keys[0], keys[1..];
      var sep := if |keys| == 1 then "" else ",";
      MembersAreExact(rest, a, b);
      assert forall q :: q in keys <==> q == k || q in rest;
      if Members(keys, a) == Members(keys, b) {
        SamePrefix(Quote(k), ":" + (Quote(Read(a, k)) + (sep + Members(rest, a))), ":" + (Quote(Read(b, k)) + (sep + Members(rest, b))));
        SamePrefix(":", Quote(Read(a, k)) + (sep + Members(rest, a)), Quote(Read(b, k)) + (sep + Members(rest, b)));
        QuotedTextIsSelfDelimiting(Read(a, k), sep + Members(rest, a), Read(b, k), sep + Members(rest, b));
        SamePrefix(sep, Members(rest, a), Members(rest, b));
      }
    }
  }

  /** Two runs of one capability share a key text exactly when they agree on every declared name. */
  lemma KeyTextIsExact(id: string, names: seq<string>, a: map<string, string>, b: map<string, string>)
    ensures KeyText(id, names, a) == KeyText(id, names, b) <==> forall n | n in names :: Read(a, n) == Read(b, n)
  {
    hide Members, Place;
    MembersAreExact(KeyOrder(names), a, b);
    if KeyText(id, names, a) == KeyText(id, names, b) {
      SamePrefix(id, ":{" + Members(KeyOrder(names), a), ":{" + Members(KeyOrder(names), b));
      SamePrefix(":{", Members(KeyOrder(names), a), Members(KeyOrder(names), b));
    }
  }

  /** Neither the order nor a repetition of the declared names matters. */
  lemma DeclarationOrderIsIrrelevant(id: string, names: seq<string>, others: seq<string>, inputs: map<string, string>)
    requires forall n :: n in names <==> n in others
    ensures KeyText(id, names, inputs) == KeyText(id, others, inputs)
  {
    KeyOrderIsOrdered(names);
    KeyOrderIsOrdered(others);
    OrderedListsAgree(KeyOrder(names), KeyOrder(others));
  }
}
