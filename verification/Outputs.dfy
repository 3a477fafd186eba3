/** Typed outputs read off the screen: `src/replay/outputs.ts`. */
module Outputs {
  import opened Text
  import opened Prelude
  import opened Locators

  datatype OutputValue = Raw(text: string) | Money(currency: string, minor: int)

  /** Outputs by name. */
  type Bag = map<string, OutputValue>

  /** `/[0-9.]/g` kept, everything else dropped. */
  function Keep(s: string): string {
    if s == "" then ""
    else (if IsDigit(s[0]) || s[0] == '.' then [s[0]] else "") + Keep(s[1..])
  }

  /** `Number(s)` for a string of digits; the empty string is zero. */
  function Value(s: string): nat
    requires forall c | c in s :: IsDigit(c)
  {
    if s == "" then 0
    else
      assert s[|s| - 1] in s && IsDigit(s[|s| - 1]);
      Value(s[..|s| - 1]) * 10 + (s[|s| - 1] as int - '0' as int)
  }

  function BeforeDot(s: string): (r: string)
    ensures '.' !in r && r <= s
    ensures |r| < |s| ==> s[|r|] == '.'
  {
    if s == "" || s[0] == '.' then "" else [s[0]] + BeforeDot(s[1..])
  }

  /** `nums.split(".")[1] ?? ""` */
  function SecondPart(nums: string): string {
    var whole := BeforeDot(nums);
    if |whole| == |nums| then "" else BeforeDot(nums[|whole| + 1..])
  }

  /** `/^\(.*\)$/` */
  predicate Parenthesised(s: string) {
    |s| >= 2 && s[0] == '(' && s[|s| - 1] == ')' && forall c | c in s :: c !in "\n\r\U{2028}\U{2029}"
  }

  predicate Negative(s: string) {
    Parenthesised(s) || (s != "" && s[0] == '-')
  }

  predicate WordChar(c: char) {
    IsLetter(c) || IsDigit(c) || c == '_'
  }

  predicate CurrencyAt(s: string, i: nat) {
    && i + 3 <= |s|
    && (forall k | i <= k < i + 3 :: 'A' <= s[k] <= 'Z')
    && (i > 0 ==> !WordChar(s[i - 1]))
    && (i + 3 < |s| ==> !WordChar(s[i + 3]))
  }

  /** First three-letter capital word at or behind `from`, else the default. */
  function Currency(s: string, from: nat := 0): string
    decreases |s| - from
  {
    if from + 3 > |s| then "USD"
    else if CurrencyAt(s, from) then s[from..from + 3]
    else Currency(s, from + 1)
  }

  lemma {:induction false} KeepIsDigitsAndDots(s: string)
    ensures forall c | c in Keep(s) :: IsDigit(c) || c == '.'
  {
    if s != "" {
      KeepIsDigitsAndDots(s[1..]);
    }
  }

  function ParseMoney(raw: string): Option<OutputValue> {
    var trimmed := Trim(raw);
    if trimmed == "" then None
    else
      var nums := Keep(trimmed);
      if nums == "" || nums == "." then None
      else
        var whole, frac := BeforeDot(nums), SecondPart(nums);
        if whole == "" then None
        else
          KeepIsDigitsAndDots(trimmed);
          assert forall c | c in SecondPart(nums) :: c in nums;
          var cents := (frac + "00")[..2];
          var minor := Value(whole) * 100 + Value(cents);
          Some(Money(Currency(trimmed), Signed(Negative(trimmed), minor)))
  }

  datatype OutputDef = OutputDef(name: string, money: bool, locator: Target)

  /** `coerceOutput`; `None` is the failed coercion. */
  function Coerce(def: Option<OutputDef>, raw: string): (r: Option<OutputValue>)
    ensures r.None? ==> def.Some? && def.value.money
    ensures r.Some? && def.Some? ==> HasType(def.value, r.value)
  {
    if def.Some? && def.value.money then ParseMoney(raw) else Some(Raw(raw))
  }

  predicate HasType(def: OutputDef, v: OutputValue) {
    if def.money then v.Money? else v.Raw?
  }

  // ----- Rendering, and parsing as its inverse -----

  function TwoDigits(n: nat): string
    requires n < 100
  {
    [(n / 10) as char + '0', (n % 10) as char + '0']
  }

  lemma TwoDigitsAreDigits(n: nat)
    requires n < 100
    ensures |TwoDigits(n)| == 2 && forall c | c in TwoDigits(n) :: IsDigit(c)
  {
  }

  /** Thousands separated by commas. */
  function Grouped(digits: string): string {
    if |digits| <= 3 then digits else Grouped(digits[..|digits| - 3]) + "," + digits[|digits| - 3..]
  }

  function Render(sign: string, n: nat): string {
    sign + Grouped(Decimal(n / 100)) + "." + TwoDigits(n % 100)
  }

  lemma {:induction false} ValueOfDecimal(n: nat)
    ensures Value(Decimal(n)) == n
  {
    if n >= 10 {
      ValueOfDecimal(n / 10);
      var d := Decimal(n);
      assert d[..|d| - 1] == Decimal(n / 10);
    }
  }

  lemma ValueOfTwoDigits(n: nat)
    requires n < 100
    ensures Value(TwoDigits(n)) == n
  {
    var t := TwoDigits(n);
    assert t[..1][..0] == "" && t[..1][0] == t[0];
    assert Value(t[..1]) == n / 10;
  }

  lemma {:induction false} BeforeDotOf(a: string, b: string)
    requires '.' !in a && (b == "" || b[0] == '.')
    ensures BeforeDot(a + b) == a
  {
    if a == "" {
      assert a + b == b;
    } else {
      BeforeDotOf(a[1..], b);
      assert (a + b)[1..] == a[1..] + b;
    }
  }

  function Signed(negative: bool, n: int): int {
    if negative then -n else n
  }

  lemma MoneySplits(whole: string, cents: string, extra: string)
    requires |cents| == 2
    ensures var nums, frac := whole + "." + cents + extra, cents + extra;
            && nums == whole + ("." + frac) && nums[|whole| + 1..] == frac
            && |frac| >= 2 && frac[..2] == cents
  {
  }

  /**
   * Whatever else the text shows - currency signs, grouping, words - the digits and the first dot decide:
   * hundredths are exact and further decimals are cut off, towards zero on either side.
   */
  lemma ParseReadsTheDigits(raw: string, n: nat, extra: string)
    requires Keep(Trim(raw)) == Decimal(n / 100) + "." + TwoDigits(n % 100) + extra
    requires forall c | c in extra :: IsDigit(c)
    ensures ParseMoney(raw) == Some(Money(Currency(Trim(raw)), Signed(Negative(Trim(raw)), n)))
  {
    hide *;
    var whole, cents := Decimal(n / 100), TwoDigits(n % 100);
    TwoDigitsAreDigits(n % 100);
    MoneySplits(whole, cents, extra);
    ValueOfDecimal(n / 100);
    ValueOfTwoDigits(n % 100);
    ParseBySplit(raw, whole, cents + extra);
  }

  lemma ParseBySplit(raw: string, whole: string, frac: string)
    requires Keep(Trim(raw)) == whole + ("." + frac) && AllDigits(whole) && forall c | c in frac :: IsDigit(c)
    ensures |frac| >= 2 ==>
              ParseMoney(raw) == Some(Money(Currency(Trim(raw)), Signed(Negative(Trim(raw)), Value(whole) * 100 + Value(frac[..2]))))
  {
    assert Keep("") == "";
    hide Keep, Trim, Currency, Negative, Value, Signed;
    var nums := Keep(Trim(raw));
    assert nums[|whole| + 1..] == frac;
    BeforeDotOf(whole, "." + frac);
    BeforeDotOf(frac, "");
    assert frac + "" == frac;
    if |frac| >= 2 {
      assert (frac + "00")[..2] == frac[..2];
    }
  }

  lemma {:induction false} KeepOfConcat(a: string, b: string)
    ensures Keep(a + b) == Keep(a) + Keep(b)
  {
    if a == "" {
      assert a + b == b;
    } else {
      KeepOfConcat(a[1..], b);
      assert (a + b)[1..] == a[1..] + b;
    }
  }

  lemma {:induction false} KeepOfDigits(s: string)
    requires forall c | c in s :: IsDigit(c)
    ensures Keep(s) == s
  {
    if s != "" {
      KeepOfDigits(s[1..]);
    }
  }

  lemma {:induction false} KeepOfNone(s: string)
    requires forall c | c in s :: !IsDigit(c) && c != '.'
    ensures Keep(s) == ""
  {
    if s != "" {
      KeepOfNone(s[1..]);
    }
  }

  lemma {:induction false} KeepOfGrouped(digits: string)
    requires forall c | c in digits :: IsDigit(c)
    ensures Keep(Grouped(digits)) == digits
    decreases |digits|
  {
    if |digits| <= 3 {
      KeepOfDigits(digits);
    } else {
      var head, tail := digits[..|digits| - 3], digits[|digits| - 3..];
      KeepOfGrouped(head);
      KeepOfConcat(Grouped(head) + ",", tail);
      KeepOfConcat(Grouped(head), ",");
      KeepOfDigits(tail);
      assert head + tail == digits;
    }
  }

  lemma KeepOfDot()
    ensures Keep(".") == "."
  {
    assert "."[1..] == "";
  }

  lemma KeepOfRender(sign: string, n: nat)
    requires forall c | c in sign :: !IsDigit(c) && c != '.'
    ensures Keep(Render(sign, n)) == Decimal(n / 100) + "." + TwoDigits(n % 100)
  {
    hide Decimal, Grouped, Keep;
    assert Keep(".") == "." by {
      KeepOfDot();
    }
    var g, cents := Grouped(Decimal(n / 100)), TwoDigits(n % 100);
    KeepOfConcat(sign + g + ".", cents);
    KeepOfConcat(sign + g, ".");
    KeepOfConcat(sign, g);
    KeepOfNone(sign);
    KeepOfGrouped(Decimal(n / 100));
    KeepOfDigits(cents);
  }

  lemma TrimOfTight(s: string)
    requires s != "" && !IsSpace(s[0]) && !IsSpace(s[|s| - 1])
    ensures Trim(s) == s
  {
  }

  /** A sign on one line that neither hides digits nor reads as a minus; a code may be set off by a space. */
  predicate PlainSign(sign: string) {
    && (forall c | c in sign :: !IsDigit(c) && c != '.' && c !in "\n\r\U{2028}\U{2029}")
    && (sign != "" ==> sign[0] != '-' && sign[0] != '(' && !IsSpace(sign[0]))
  }

  lemma {:induction false} GroupedStartsWithADigit(digits: string)
    requires digits != "" && forall c | c in digits :: IsDigit(c)
    ensures Grouped(digits) != "" && Grouped(digits)[0] == digits[0]
    ensures forall c | c in Grouped(digits) :: IsDigit(c) || c == ','
    decreases |digits|
  {
    if |digits| > 3 {
      GroupedStartsWithADigit(digits[..|digits| - 3]);
    }
  }

  lemma RenderShape(sign: string, n: nat)
    requires PlainSign(sign)
    ensures var s := Render(sign, n);
            s != "" && s[0] != '-' && s[0] != '(' && !IsSpace(s[0]) && IsDigit(s[|s| - 1])
    ensures forall c | c in Render(sign, n) :: c in sign || IsDigit(c) || c == ',' || c == '.'
  {
    var d := Decimal(n / 100);
    GroupedStartsWithADigit(d);
    assert d[0] in d;
    assert sign != "" ==> sign[0] in sign;
  }

  /** A rendering wrapped in a prefix and a suffix that carry no digit. */
  lemma WrappedRender(pre: string, sign: string, n: nat, post: string)
    requires PlainSign(sign) && forall c | c in pre + post :: !IsDigit(c) && c != '.' && !IsSpace(c)
    ensures var s := pre + Render(sign, n) + post;
            ParseMoney(s) == Some(Money(Currency(s), Signed(Negative(s), n)))
  {
    hide Keep, Value, Currency, Decimal, Grouped;
    var r := Render(sign, n);
    var s := pre + r + post;
    RenderShape(sign, n);
    assert forall c | c in pre :: c in pre + post;
    assert forall c | c in post :: c in pre + post;
    assert pre != "" ==> pre[0] in pre;
    assert post != "" ==> post[|post| - 1] in post;
    TrimOfTight(s);
    KeepOfConcat(pre + r, post);
    KeepOfConcat(pre, r);
    KeepOfNone(pre);
    KeepOfNone(post);
    KeepOfRender(sign, n);
    var digits := Decimal(n / 100) + "." + TwoDigits(n % 100);
    assert "" + digits + "" == digits == digits + "";
    ParseReadsTheDigits(s, n, "");
  }

  lemma SignOfRender(sign: string, n: nat)
    requires PlainSign(sign)
    ensures var r := Render(sign, n); !Negative(r) && Negative("-" + r) && Negative("(" + r + ")")
  {
    hide Decimal, Grouped;
    RenderShape(sign, n);
    var p := "(" + Render(sign, n) + ")";
    assert forall c | c in p :: c == '(' || c == ')' || c in Render(sign, n);
  }

  /** Parsing inverts rendering, for the plain, the leading-minus and the parenthesised form. */
  lemma ParseUndoesRender(sign: string, n: nat)
    requires PlainSign(sign)
    ensures ParseMoney(Render(sign, n)) == Some(Money(Currency(Render(sign, n)), n))
    ensures var m := "-" + Render(sign, n); ParseMoney(m) == Some(Money(Currency(m), Signed(true, n)))
    ensures var p := "(" + Render(sign, n) + ")"; ParseMoney(p) == Some(Money(Currency(p), Signed(true, n)))
  {
    hide ParseMoney, Currency, Negative, Render, PlainSign;
    var r := Render(sign, n);
    SignOfRender(sign, n);
    assert ParseMoney(r) == Some(Money(Currency(r), n)) by {
      WrappedRender("", sign, n, "");
      assert "" + r + "" == r;
    }
    assert ParseMoney("-" + r) == Some(Money(Currency("-" + r), Signed(true, n))) by {
      WrappedRender("-", sign, n, "");
      assert "-" + r + "" == "-" + r;
    }
    WrappedRender("(", sign, n, ")");
  }

  lemma {:induction false} NoCodeMeansDollars(s: string, from: nat)
    requires forall i: nat | from <= i :: !CurrencyAt(s, i)
    ensures Currency(s, from) == "USD"
    decreases |s| - from
  {
    if from + 3 <= |s| {
      NoCodeMeansDollars(s, from + 1);
    }
  }

  /** Three capital letters. */
  predicate IsCode(code: string) {
    |code| == 3 && forall c | c in code :: 'A' <= c <= 'Z'
  }

  /** A code in front of a space is read, at the start or behind one character that is part of no word and no code. */
  lemma CodeIsRead(pre: string, code: string, rest: string)
    requires IsCode(code) && |pre| <= 1 && forall c | c in pre :: !WordChar(c)
    ensures Currency(pre + (code + " " + rest)) == code
  {
    var s := pre + (code + " " + rest);
    assert forall k | 0 <= k < 3 :: s[|pre| + k] == code[k] && code[k] in code;
    assert s[|pre| + 3] == ' ';
    assert CurrencyAt(s, |pre|);
    if pre != "" {
      assert s[0] == pre[0] && pre[0] in pre;
      assert !CurrencyAt(s, 0);
      assert Currency(s, 0) == Currency(s, 1);
    }
    assert s[|pre|..|pre| + 3] == code;
  }

  /** An amount behind a currency code, in all three forms, is read in that currency. */
  lemma CodedRenderIsRead(code: string, n: nat)
    requires IsCode(code)
    ensures var r := Render(code + " ", n);
            && ParseMoney(r) == Some(Money(code, n))
            && ParseMoney("-" + r) == Some(Money(code, Signed(true, n)))
            && ParseMoney("(" + r + ")") == Some(Money(code, Signed(true, n)))
  {
    hide ParseMoney, Currency;
    var sign := code + " ";
    assert forall c | c in sign :: c in code || c == ' ';
    assert sign[0] == code[0] && code[0] in code;
    ParseUndoesRender(sign, n);
    var amount := Grouped(Decimal(n / 100)) + "." + TwoDigits(n % 100);
    var r := Render(sign, n);
    assert r == "" + (code + " " + amount);
    assert "-" + r == "-" + (code + " " + amount);
    assert "(" + r + ")" == "(" + (code + " " + (amount + ")"));
    CodeIsRead("", code, amount);
    CodeIsRead("-", code, amount);
    CodeIsRead("(", code, amount + ")");
  }

  /** Without a capital letter in its sign, an amount is in dollars, in all three forms. */
  lemma PlainRenderIsDollars(sign: string, n: nat)
    requires PlainSign(sign) && forall c | c in sign :: !('A' <= c <= 'Z')
    ensures var r := Render(sign, n);
            && ParseMoney(r) == Some(Money("USD", n))
            && ParseMoney("-" + r) == Some(Money("USD", Signed(true, n)))
            && ParseMoney("(" + r + ")") == Some(Money("USD", Signed(true, n)))
  {
    hide ParseMoney, Currency, Render;
    ParseUndoesRender(sign, n);
    RenderShape(sign, n);
    var r := Render(sign, n);
    NoCapitalsNoCode(r);
    NoCapitalsNoCode("-" + r);
    NoCapitalsNoCode("(" + r + ")");
  }

  lemma NoCapitalsNoCode(s: string)
    requires forall c | c in s :: !('A' <= c <= 'Z')
    ensures Currency(s) == "USD"
  {
    forall i: nat
      ensures !CurrencyAt(s, i)
    {
      if i < |s| {
        assert s[i] in s;
      }
    }
    NoCodeMeansDollars(s, 0);
  }
}
