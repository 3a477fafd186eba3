/** Evidence redaction: `src/policy/redact.ts`. */
module Redact {
  import opened Text

  /** A JSON-like value; an object keeps its entries in order. */
  datatype Json =
    | Undefined
    | Null
    | Bool(b: bool)
    | Num(n: real)
    | Str(s: string)
    | Arr(items: seq<Json>)
    | Obj(fields: seq<Field>)

  datatype Field = Field(key: string, value: Json)

  datatype Noted = Noted(piiFields: set<string>, piiValues: seq<string>)

  const TOKEN := "[REDACTED-PII]"

  const DROP_KEYS := {"aria", "text", "observationPreview"}

  const SECRET_WORDS := ["password", "passwd", "secret", "token", "ssn", "credential", "authorization"]

  predicate LooksSensitive(name: string) {
    exists i | 0 <= i < |SECRET_WORDS| :: Occurs(SECRET_WORDS[i], Lower(name))
  }

  predicate HasKey(fields: seq<Field>, key: string) {
    exists i | 0 <= i < |fields| :: fields[i].key == key
  }

  function ValueOf(fields: seq<Field>, key: string): Json
    requires HasKey(fields, key)
  {
    if fields[0].key == key then fields[0].value else ValueOf(fields[1..], key)
  }

  predicate MoneyShaped(v: Json) {
    v.Obj? && HasKey(v.fields, "currency") && HasKey(v.fields, "minor")
  }

  function RedactedMoney(v: Json): Json
    requires MoneyShaped(v)
  {
    Obj([Field("currency", ValueOf(v.fields, "currency")), Field("minor", Str(SECRET))])
  }

  function RedactPiiField(v: Json): Json {
    if MoneyShaped(v) then RedactedMoney(v) else Str(TOKEN)
  }

  /** The loop of `redactString` as a fold over the noted values. */
  function Scrub(s: string, values: seq<string>): string {
    if values == [] then s
    else
      var rest := Scrub(s, values[..|values| - 1]);
      var last := values[|values| - 1];
      if last != "" && Occurs(last, rest) then ReplaceAll(rest, last, TOKEN) else rest
  }

  /**
   * `redactValue`; `pre` stands for the regex pass of `redactText`, about which nothing is assumed.
   */
  function RedactValue(key: string, v: Json, noted: Noted, pre: string -> string): Json
    decreases v, 1
  {
    if key in DROP_KEYS then Undefined
    else if LooksSensitive(key) && key != "credentialRef" then Str(SECRET)
    else if key in noted.piiFields then RedactPiiField(v)
    else
      match v
      case Str(s) => Str(Scrub(pre(s), noted.piiValues))
      case Arr(items) => Arr(RedactItems(0, items, noted, pre))
      case Obj(fields) =>
        if MoneyShaped(v) && noted.piiFields != {} then RedactedMoney(v)
        else Obj(RedactFields(fields, noted, pre))
      case _ => v
  }

  function RedactItems(from: nat, items: seq<Json>, noted: Noted, pre: string -> string): seq<Json>
    decreases items, 0
  {
    if items == [] then []
    else [RedactValue(Decimal(from), items[0], noted, pre)] + RedactItems(from + 1, items[1..], noted, pre)
  }

  function RedactFields(fields: seq<Field>, noted: Noted, pre: string -> string): seq<Field>
    decreases fields, 0
  {
    if fields == [] then []
    else
      var value := RedactValue(fields[0].key, fields[0].value, noted, pre);
      (if value == Undefined then [] else [Field(fields[0].key, value)]) + RedactFields(fields[1..], noted, pre)
  }

  function RedactDeep(v: Json, noted: Noted, pre: string -> string): Json {
    RedactValue("root", v, noted, pre)
  }

  /** The per-run context, filled while a run reads values off the screen. */
  class RedactionContext {
    var piiFields: set<string>
    var piiValues: seq<string>

    constructor (fields: set<string>)
      ensures piiFields == fields && piiValues == []
    {
      piiFields := fields;
      piiValues := [];
    }

    function View(): Noted
      reads this
    {
      Noted(piiFields, piiValues)
    }

    method NotePiiValue(raw: string)
      modifies this`piiValues
      ensures var trimmed := Trim(raw);
              piiValues == old(piiValues) + (if |trimmed| < 2 || trimmed in old(piiValues) then [] else [trimmed])
    {
      if raw == "" {
        return;
      }
      var trimmed := Trim(raw);
      if |trimmed| < 2 {
        return;
      }
      if trimmed !in piiValues {
        piiValues := piiValues + [trimmed];
      }
    }

    method RedactString(value: string, pre: string -> string) returns (out: string)
      ensures out == Scrub(pre(value), piiValues)
    {
      out := pre(value);
      for i := 0 to |piiValues|
        invariant out == Scrub(pre(value), piiValues[..i])
      {
        assert piiValues[..i + 1][..i] == piiValues[..i];
        var secret := piiValues[i];
        if secret != "" && Occurs(secret, out) {
          out := ReplaceAll(out, secret, TOKEN);
        }
      }
      assert piiValues[..|piiValues|] == piiValues;
    }
  }

  /** No string leaf contains `w`, a money object's currency slot excepted. */
  predicate Clean(w: string, v: Json)
    decreases v, 1
  {
    match v
    case Str(s) => !Occurs(w, s)
    case Arr(items) => forall i | 0 <= i < |items| :: Clean(w, items[i])
    case Obj(fields) =>
      forall i | 0 <= i < |fields| ::
        (MoneyShaped(v) && fields[i].key == "currency") || Clean(w, fields[i].value)
    case _ => true
  }

  /** Laid over the token at offset `d`, the value agrees with it wherever the two overlap. */
  predicate Agrees(w: string, d: int) {
    forall k | 0 <= k < |w| && 0 <= d + k < |TOKEN| :: w[k] == TOKEN[d + k]
  }

  /** A copy of the token may be part of the value, or the value, in whole or in part, of the token. */
  predicate Overlaps(w: string) {
    exists d | -|w| < d < |TOKEN| :: Agrees(w, d)
  }

  const SECRET := "[REDACTED]"

  /** No marker can spell the value, in whole or in part. */
  predicate Spellproof(w: string) {
    w != "" && !Overlaps(w) && !Occurs(w, SECRET)
  }

  lemma SliceInToken(w: string, tail: string, i: nat)
    requires w != "" && At(w, TOKEN + tail, i)
    ensures Overlaps(w) || Occurs(w, tail)
  {
    var s := TOKEN + tail;
    if i < |TOKEN| {
      assert forall k | 0 <= k < |w| :: w[k] == s[i..i + |w|][k] == s[i + k];
      assert Agrees(w, i);
    } else {
      assert tail[i - |TOKEN|..i - |TOKEN| + |w|] == s[i..i + |w|];
      OccursIfSlice(w, tail, i - |TOKEN|);
    }
  }

  lemma TokenIsClean(w: string, tail: string)
    requires w != "" && !Overlaps(w)
    ensures Occurs(w, TOKEN + tail) <==> Occurs(w, tail)
  {
    hide Overlaps;
    if Occurs(w, TOKEN + tail) {
      var i := OccursAtOffset(w, TOKEN + tail);
      SliceInToken(w, tail, i);
    }
    if Occurs(w, tail) {
      OccursInSuffix(w, TOKEN, tail);
    }
  }

  /** From its `m`-th character on, the value runs into the token. */
  predicate RunsInto(w: string, m: nat) {
    m < |w| && Agrees(w, 0 - m)
  }

  /** A prefix of a replaced text was there before, or runs into a token. */
  lemma {:induction false} ReplacedPrefix(s: string, v: string, w: string)
    requires v != "" && w <= ReplaceAll(s, v, TOKEN)
    ensures w <= s || exists m: nat :: RunsInto(w, m)
    decreases |s|
  {
    if w != "" {
      var out := ReplaceAll(s, v, TOKEN);
      if v <= s {
        assert forall k | 0 <= k < |w| :: w[k] == out[k];
        assert RunsInto(w, 0);
      } else {
        assert out[1..] == ReplaceAll(s[1..], v, TOKEN) && w[0] == s[0] && w[1..] <= out[1..];
        ReplacedPrefix(s[1..], v, w[1..]);
        if !(w[1..] <= s[1..]) {
          var m: nat :| RunsInto(w[1..], m);
          forall k | 0 <= k < |w| && 0 <= 0 - (m + 1) + k < |TOKEN|
            ensures w[k] == TOKEN[0 - (m + 1) + k]
          {
            assert w[k] == w[1..][k - 1];
          }
          assert RunsInto(w, m + 1);
        }
      }
    }
  }

  lemma ReplacedOrOverlapping(s: string, v: string, w: string)
    requires v != "" && w <= ReplaceAll(s, v, TOKEN)
    ensures w <= s || Overlaps(w)
  {
    ReplacedPrefix(s, v, w);
    if !(w <= s) {
      var m: nat :| RunsInto(w, m);
      assert Agrees(w, 0 - m);
    }
  }

  /** Replacing one value removes it and never re-creates another. */
  lemma {:induction false} ReplacementRecreatesNothing(s: string, v: string, w: string)
    requires v != "" && w != "" && !Overlaps(w)
    requires w == v || !Occurs(w, s)
    ensures !Occurs(w, ReplaceAll(s, v, TOKEN))
    decreases |s|
  {
    if s == "" {
    } else if v <= s {
      if Occurs(w, s[|v|..]) {
        OccursInSuffix(w, s[..|v|], s[|v|..]);
        assert s == s[..|v|] + s[|v|..];
      }
      ReplacementRecreatesNothing(s[|v|..], v, w);
      TokenIsClean(w, ReplaceAll(s[|v|..], v, TOKEN));
    } else {
      ReplacementRecreatesNothing(s[1..], v, w);
      if w <= ReplaceAll(s, v, TOKEN) {
        ReplacedOrOverlapping(s, v, w);
      }
      assert ReplaceAll(s, v, TOKEN)[1..] == ReplaceAll(s[1..], v, TOKEN);
    }
  }

  lemma {:induction false} ScrubRemoves(s: string, values: seq<string>, w: string)
    requires w != "" && !Overlaps(w) && (w in values || !Occurs(w, s))
    ensures !Occurs(w, Scrub(s, values))
    decreases |values|
  {
    if values != [] {
      var front, last := values[..|values| - 1], values[|values| - 1];
      assert values == front + [last];
      var rest := Scrub(s, front);
      if w in front || !Occurs(w, s) {
        ScrubRemoves(s, front, w);
      }
      if last != "" && Occurs(last, rest) {
        ReplacementRecreatesNothing(rest, last, w);
      }
    }
  }

  lemma MarkersAreClean(w: string)
    requires Spellproof(w)
    ensures !Occurs(w, SECRET) && !Occurs(w, TOKEN)
  {
    TokenIsClean(w, "");
    assert TOKEN + "" == TOKEN;
  }

  lemma RedactedMoneyIsClean(v: Json, w: string)
    requires MoneyShaped(v) && Spellproof(w)
    ensures Clean(w, RedactedMoney(v))
  {
    MarkersAreClean(w);
    var m := RedactedMoney(v);
    assert m.fields[0].key == "currency" && m.fields[1].key == "minor";
  }

  /** After redaction no string leaf, at any depth, contains a noted value. */
  lemma {:induction false} RedactionLeavesNoNotedValue(key: string, v: Json, noted: Noted, pre: string -> string, w: string)
    requires w in noted.piiValues && Spellproof(w)
    ensures Clean(w, RedactValue(key, v, noted, pre))
    decreases v, 1
  {
    MarkersAreClean(w);
    if MoneyShaped(v) {
      RedactedMoneyIsClean(v, w);
    }
    match v
    case Str(s) => ScrubRemoves(pre(s), noted.piiValues, w);
    case Arr(items) => ItemsAreClean(0, items, noted, pre, w);
    case Obj(fields) => FieldsAreClean(fields, noted, pre, w);
    case _ =>
  }

  lemma {:induction false} ItemsAreClean(from: nat, items: seq<Json>, noted: Noted, pre: string -> string, w: string)
    requires w in noted.piiValues && Spellproof(w)
    ensures forall x | x in RedactItems(from, items, noted, pre) :: Clean(w, x)
    decreases items, 0
  {
    if items != [] {
      RedactionLeavesNoNotedValue(Decimal(from), items[0], noted, pre, w);
      ItemsAreClean(from + 1, items[1..], noted, pre, w);
    }
  }

  lemma {:induction false} FieldsAreClean(fields: seq<Field>, noted: Noted, pre: string -> string, w: string)
    requires w in noted.piiValues && Spellproof(w)
    ensures forall f | f in RedactFields(fields, noted, pre) :: Clean(w, f.value)
    decreases fields, 0
  {
    if fields != [] {
      RedactionLeavesNoNotedValue(fields[0].key, fields[0].value, noted, pre, w);
      FieldsAreClean(fields[1..], noted, pre, w);
    }
  }

  // ----- The proviso is exact -----

  function Repeat(c: char, n: nat): (r: string)
    ensures |r| == n && forall k | 0 <= k < n :: r[k] == c
  {
    seq(n, _ => c)
  }

  /** A run of one character behind a text that does not end in it is replaced as a whole. */
  lemma {:induction false} ReplaceRun(x: string, c: char, n: nat, y: string, r: string)
    requires n > |x| && n > |y| && (x != "" ==> x[|x| - 1] != c)
    ensures ReplaceAll(x + Repeat(c, n) + y, Repeat(c, n), r) == x + r + y
    decreases |x|
  {
    var run := Repeat(c, n);
    var s := x + run + y;
    if x == "" {
      assert s == run + y && run <= s && s[n..] == y;
      AbsentIfNowhere(run, y);
      ReplaceAbsent(y, run, r);
    } else {
      assert s[|x| - 1] == x[|x| - 1] != run[|x| - 1];
      assert s[1..] == x[1..] + run + y && s[0] == x[0];
      ReplaceRun(x[1..], c, n, y, r);
      assert [x[0]] + (x[1..] + r + y) == x + r + y;
    }
  }

  /** What the value has in front of the token it overlaps at `d`, and behind it. */
  function Front(w: string, d: int): string
    requires -|w| < d < |TOKEN|
  {
    if d < 0 then w[..-d] else ""
  }

  function Back(w: string, d: int): string
    requires -|w| < d < |TOKEN|
  {
    if d + |w| > |TOKEN| then w[|TOKEN| - d..] else ""
  }

  lemma AroundTheToken(w: string, d: int)
    requires w != "" && -|w| < d < |TOKEN| && Agrees(w, d)
    ensures Occurs(w, Front(w, d) + TOKEN + Back(w, d))
    ensures |Front(w, d)| < |w| && |Back(w, d)| < |w| && w[|Front(w, d)|] in TOKEN
    ensures |Front(w, d)| + |Back(w, d)| < |w|
  {
    var x, y := Front(w, d), Back(w, d);
    var out, at := x + TOKEN + y, if d < 0 then 0 else d;
    assert w[|x|] == TOKEN[d + |x|];
    assert |out| >= at + |w|;
    forall k | 0 <= k < |w|
      ensures out[at + k] == w[k]
    {
      if 0 <= d + k < |TOKEN| {
        assert out[|x| + (d + k)] == TOKEN[d + k];
      }
    }
    assert out[at..at + |w|] == w;
    OccursIfSlice(w, out, at);
  }

  /** A value with a character of the token at `m` does not occur in a run of another around which there is less than the rest of it. */
  lemma NotInTheRun(w: string, m: nat, c: char, x: string, y: string)
    requires m < |w| && w[m] != c && |x| == m && |x| + |y| < |w|
    ensures !Occurs(w, x + Repeat(c, |w|) + y)
  {
    var s := x + Repeat(c, |w|) + y;
    forall i: nat
      ensures !At(w, s, i)
    {
      if i + |w| <= |s| {
        assert s[i..i + |w|][m] == s[i + m] == c;
      }
    }
    AbsentIfNowhere(w, s);
  }

  lemma TokenIsUpperCase()
    ensures 'a' !in TOKEN && 'b' !in TOKEN
  {
  }

  /** A value that agrees with the token at `d` is re-created behind its own replacement by that of another value. */
  lemma OverlapIsSpelt(w: string, d: int) returns (s: string, v: string)
    requires w != "" && -|w| < d < |TOKEN| && Agrees(w, d)
    ensures |v| == |w| && v != w && Occurs(w, Scrub(s, [w, v]))
  {
    hide Agrees, Front, Back, Occurs, ReplaceAll;
    var x, y := Front(w, d), Back(w, d);
    var c := if x != "" && x[|x| - 1] == 'a' then 'b' else 'a';
    AroundTheToken(w, d);
    TokenIsUpperCase();
    v := Repeat(c, |w|);
    s := x + v + y;
    NotInTheRun(w, |x|, c, x, y);
    ReplaceRun(x, c, |w|, y, TOKEN);
    assert v[|x|] == c;
    assert s[|x|..|x| + |v|] == v;
    OccursIfSlice(v, s, |x|);
    ScrubTwo(s, w, v);
  }

  lemma ScrubTwo(s: string, w: string, v: string)
    requires w != "" && v != "" && !Occurs(w, s) && Occurs(v, s)
    ensures Scrub(s, [w, v]) == ReplaceAll(s, v, TOKEN)
  {
    hide Occurs, ReplaceAll;
    assert [w, v][..1] == [w] && [w][..0] == [];
    assert Scrub(s, []) == s && Scrub(s, [w]) == s;
  }

  /**
   * The proviso is exact: some text, among some noted values, still shows a noted value behind its scrubbing if
   * and only if the value overlaps the token.
   */
  lemma SurvivesIffItOverlaps(w: string)
    requires w != ""
    ensures Overlaps(w) <==> exists s, values :: w in values && Occurs(w, Scrub(s, values))
  {
    if Overlaps(w) {
      var d :| -|w| < d < |TOKEN| && Agrees(w, d);
      var s, v := OverlapIsSpelt(w, d);
      assert w in [w, v];
    } else if s, values :| w in values && Occurs(w, Scrub(s, values)) {
      ScrubRemoves(s, values, w);
    }
  }

  /** The redacted value still shows a noted one. */
  ghost predicate Shows(w: string, key: string, v: Json, noted: Noted, pre: string -> string) {
    w in noted.piiValues && !Clean(w, RedactValue(key, v, noted, pre))
  }

  /** So it is for whole values, where a secret's marker may show one too. */
  lemma ProvisoIsExact(w: string)
    requires w != ""
    ensures Spellproof(w) <==> !exists key, v, noted, pre :: Shows(w, key, v, noted, pre)
  {
    hide RedactValue, Clean;
    if Spellproof(w) {
      forall key, v, noted, pre
        ensures !Shows(w, key, v, noted, pre)
      {
        if w in noted.piiValues {
          RedactionLeavesNoNotedValue(key, v, noted, pre, w);
        }
      }
    } else {
      OtherwiseShown(w);
    }
  }

  lemma OtherwiseShown(w: string)
    requires w != "" && (Overlaps(w) || Occurs(w, SECRET))
    ensures exists key, v, noted, pre :: Shows(w, key, v, noted, pre)
  {
    hide Overlaps, LooksSensitive;
    var same := (s: string) => s;
    if Overlaps(w) {
      SurvivesIffItOverlaps(w);
      var s, values :| w in values && Occurs(w, Scrub(s, values));
      RootIsPlain();
      assert RedactValue("root", Str(s), Noted({}, values), same) == Str(Scrub(same(s), values));
      assert Shows(w, "root", Str(s), Noted({}, values), same);
    } else {
      SecretKeysAreSecret();
      assert RedactValue("password", Null, Noted({}, [w]), same) == Str(SECRET);
      assert Shows(w, "password", Null, Noted({}, [w]), same);
    }
  }

  lemma RootIsPlain()
    ensures "root" !in DROP_KEYS && !LooksSensitive("root")
  {
    assert Lower("root") == "root";
    forall i | 0 <= i < |SECRET_WORDS|
      ensures !Occurs(SECRET_WORDS[i], "root")
    {
      ShortHay(SECRET_WORDS[i], "root");
    }
  }

  /** None of the longer words fits, and the three of at most four letters differ. */
  lemma {:induction false} ShortHay(needle: string, hay: string)
    requires |needle| > |hay| || (|needle| > 0 && needle[0] !in hay)
    ensures !Occurs(needle, hay)
    decreases |hay|
  {
    if hay != "" {
      ShortHay(needle, hay[1..]);
    }
  }

  lemma SecretKeysAreSecret()
    ensures "password" !in DROP_KEYS && LooksSensitive("password") && "password" != "credentialRef"
  {
    assert Lower("password") == "password";
    assert SECRET_WORDS[0] == "password" && Occurs("password", "password");
  }

  lemma OverlapShows(w: string)
    requires w != "" && Overlaps(w)
    ensures '[' in w || ']' in w || Occurs(w, "REDACTED-PII")
  {
    hide Occurs;
    var d :| -|w| < d < |TOKEN| && Agrees(w, d);
    if d <= 0 {
      assert w[-d] == TOKEN[0] && w[-d] in w;
    } else if d + |w| >= |TOKEN| {
      assert w[|TOKEN| - 1 - d] == TOKEN[|TOKEN| - 1] && w[|TOKEN| - 1 - d] in w;
    } else {
      var inner := TOKEN[1..|TOKEN| - 1];
      assert inner == "REDACTED-PII";
      forall k | 0 <= k < |w|
        ensures inner[d - 1..d - 1 + |w|][k] == w[k]
      {
      }
      assert inner[d - 1..d - 1 + |w|] == w;
      OccursIfSlice(w, inner, d - 1);
    }
  }

  /** Values without a bracket that do not occur in the token's text are spellproof. */
  lemma PlainValuesAreSpellproof(w: string)
    requires w != "" && '[' !in w && ']' !in w && !Occurs(w, "REDACTED-PII")
    ensures Spellproof(w)
  {
    hide Occurs, Overlaps;
    if Overlaps(w) {
      OverlapShows(w);
    }
    SecretIsPlain(w);
  }

  lemma SecretIsPlain(w: string)
    requires w != "" && '[' !in w && ']' !in w && !Occurs(w, "REDACTED-PII")
    ensures !Occurs(w, SECRET)
  {
    if Occurs(w, "REDACTED") {
      OccursIsACut(w, "REDACTED");
      var a, b :| "REDACTED" == a + w + b;
      assert "REDACTED-PII" == a + w + (b + "-PII");
      OccursIsACut(w, "REDACTED-PII");
    }
    assert SECRET == "" + ['['] + ("REDACTED" + [']'] + "");
    OccursAcross(w, "", '[', "REDACTED" + [']'] + "");
    OccursAcross(w, "REDACTED", ']', "");
  }

  /** Nothing in `v` calls for redaction. */
  predicate Harmless(key: string, v: Json, noted: Noted, pre: string -> string)
    decreases v, 1
  {
    && key !in DROP_KEYS && key !in noted.piiFields
    && (LooksSensitive(key) ==> key == "credentialRef")
    && match v
       case Str(s) => pre(s) == s && forall w | w in noted.piiValues && w != "" :: !Occurs(w, s)
       case Arr(items) => forall i | 0 <= i < |items| :: Harmless(Decimal(i), items[i], noted, pre)
       case Obj(fields) =>
         && (MoneyShaped(v) ==> noted.piiFields == {})
         && forall i | 0 <= i < |fields| ::
              fields[i].value != Undefined && Harmless(fields[i].key, fields[i].value, noted, pre)
       case _ => true
  }

  /** Redaction touches nothing else. */
  lemma {:induction false} RedactionKeepsTheHarmless(key: string, v: Json, noted: Noted, pre: string -> string)
    requires Harmless(key, v, noted, pre)
    ensures RedactValue(key, v, noted, pre) == v
    decreases v, 1
  {
    match v
    case Str(s) => ScrubKeeps(s, noted.piiValues);
    case Arr(items) => ItemsAreKept(0, items, noted, pre);
    case Obj(fields) => FieldsAreKept(fields, noted, pre);
    case _ =>
  }

  lemma {:induction false} ScrubKeeps(s: string, values: seq<string>)
    requires forall w | w in values && w != "" :: !Occurs(w, s)
    ensures Scrub(s, values) == s
    decreases |values|
  {
    if values != [] {
      ScrubKeeps(s, values[..|values| - 1]);
      assert values[|values| - 1] in values;
    }
  }

  lemma {:induction false} ItemsAreKept(from: nat, items: seq<Json>, noted: Noted, pre: string -> string)
    requires forall i | 0 <= i < |items| :: Harmless(Decimal(from + i), items[i], noted, pre)
    ensures RedactItems(from, items, noted, pre) == items
    decreases items, 0
  {
    if items != [] {
      assert Harmless(Decimal(from + 0), items[0], noted, pre);
      RedactionKeepsTheHarmless(Decimal(from), items[0], noted, pre);
      forall i | 0 <= i < |items[1..]|
        ensures Harmless(Decimal(from + 1 + i), items[1..][i], noted, pre)
      {
        assert Harmless(Decimal(from + (i + 1)), items[i + 1], noted, pre);
      }
      ItemsAreKept(from + 1, items[1..], noted, pre);
    }
  }

  lemma {:induction false} FieldsAreKept(fields: seq<Field>, noted: Noted, pre: string -> string)
    requires forall i | 0 <= i < |fields| ::
               fields[i].value != Undefined && Harmless(fields[i].key, fields[i].value, noted, pre)
    ensures RedactFields(fields, noted, pre) == fields
    decreases fields, 0
  {
    if fields != [] {
      RedactionKeepsTheHarmless(fields[0].key, fields[0].value, noted, pre);
      FieldsAreKept(fields[1..], noted, pre);
    }
  }
}
