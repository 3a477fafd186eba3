/** String primitives shared by the modelled components: search, replacement, trimming, case. */
module Text {

  /** `hay.includes(needle)` */
  predicate Occurs(needle: string, hay: string)
    decreases |hay|, |needle|
  {
    needle <= hay || (hay != [] && Occurs(needle, hay[1..]))
  }

  /** `s.split(v).join(r)`: every leftmost, non-overlapping `v` becomes `r`. */
  function ReplaceAll(s: string, v: string, r: string): string
    requires v != ""
    decreases |s|
  {
    if s == [] then []
    else if v <= s then r + ReplaceAll(s[|v|..], v, r)
    else [s[0]] + ReplaceAll(s[1..], v, r)
  }

  /** The white space that `String.prototype.trim` removes. */
  predicate IsSpace(c: char) {
    || '\t' <= c <= '\r'
    || c == ' '
    || c in "\U{00A0}\U{1680}\U{2028}\U{2029}\U{202F}\U{205F}\U{3000}\U{FEFF}"
    || '\U{2000}' <= c <= '\U{200A}'
  }

  function TrimLeft(s: string): (r: string)
    ensures |r| <= |s|
    ensures r != "" ==> !IsSpace(r[0])
  {
    if s != "" && IsSpace(s[0]) then TrimLeft(s[1..]) else s
  }

  function TrimRight(s: string): (r: string)
    ensures r <= s
    ensures r != "" ==> !IsSpace(r[|r| - 1])
  {
    if s != "" && IsSpace(s[|s| - 1]) then TrimRight(s[..|s| - 1]) else s
  }

  function Trim(s: string): string {
    TrimRight(TrimLeft(s))
  }

  function LowerChar(c: char): char {
    if 'A' <= c <= 'Z' then c - 'A' + 'a' else c
  }

  function UpperChar(c: char): char {
    if 'a' <= c <= 'z' then c - 'a' + 'A' else c
  }

  function Lower(s: string): (r: string)
    ensures |r| == |s|
  {
    seq(|s|, i requires 0 <= i < |s| => LowerChar(s[i]))
  }

  function Upper(s: string): (r: string)
    ensures |r| == |s|
  {
    seq(|s|, i requires 0 <= i < |s| => UpperChar(s[i]))
  }

  predicate IsDigit(c: char) {
    '0' <= c <= '9'
  }

  predicate IsLetter(c: char) {
    'a' <= c <= 'z' || 'A' <= c <= 'Z'
  }

  /** `/^\d+$/` */
  predicate AllDigits(s: string) {
    s != "" && forall c | c in s :: IsDigit(c)
  }

  /** `String(n)` for a natural number. */
  function Decimal(n: nat): (r: string)
    ensures AllDigits(r)
  {
    var last := [(n % 10) as char + '0'];
    if n < 10 then last else Decimal(n / 10) + last
  }

  lemma {:induction false} OccursInSuffix(needle: string, a: string, b: string)
    requires Occurs(needle, b)
    ensures Occurs(needle, a + b)
    decreases |a|
  {
    if a == "" {
      assert a + b == b;
    } else {
      OccursInSuffix(needle, a[1..], b);
      assert (a + b)[1..] == a[1..] + b;
    }
  }

  /** A needle without the character `c` cannot straddle an occurrence of `c`. */
  lemma {:induction false} OccursAcross(needle: string, a: string, c: char, b: string)
    requires needle != "" && c !in needle
    ensures Occurs(needle, a + [c] + b) <==> Occurs(needle, a) || Occurs(needle, b)
    decreases |a|
  {
    var s := a + [c] + b;
    assert s[|a|] == c;
    if a == "" {
      assert s[1..] == b;
    } else {
      OccursAcross(needle, a[1..], c, b);
      assert s[1..] == a[1..] + [c] + b;
      assert needle <= a <==> needle <= s;
    }
  }

  /** `includes` means: the haystack can be cut around the needle. */
  lemma {:induction false} OccursIsACut(needle: string, hay: string)
    ensures Occurs(needle, hay) <==> exists a, b :: hay == a + needle + b
    decreases |hay|
  {
    if Occurs(needle, hay) {
      if needle <= hay {
        assert hay == "" + needle + hay[|needle|..];
      } else {
        OccursIsACut(needle, hay[1..]);
        var a, b :| hay[1..] == a + needle + b;
        assert hay == ([hay[0]] + a) + needle + b;
      }
    }
    if a, b :| hay == a + needle + b {
      assert needle <= needle + b;
      OccursInSuffix(needle, a, needle + b);
      assert a + (needle + b) == hay;
    }
  }

  lemma {:induction false} ReplaceAbsent(s: string, v: string, r: string)
    requires v != "" && !Occurs(v, s)
    ensures ReplaceAll(s, v, r) == s
    decreases |s|
  {
    if s != "" {
      ReplaceAbsent(s[1..], v, r);
      assert s == [s[0]] + s[1..];
    }
  }

  lemma {:induction false} OccursAtOffset(needle: string, hay: string) returns (i: nat)
    requires Occurs(needle, hay)
    ensures At(needle, hay, i)
    decreases |hay|
  {
    if needle <= hay {
      i := 0;
    } else {
      i := OccursAtOffset(needle, hay[1..]);
      i := i + 1;
    }
  }

  lemma OccursIfSlice(needle: string, hay: string, i: nat)
    requires At(needle, hay, i)
    ensures Occurs(needle, hay)
  {
    OccursIsACut(needle, hay);
    assert hay == hay[..i] + needle + hay[i + |needle|..];
  }

  predicate At(needle: string, hay: string, i: nat) {
    i + |needle| <= |hay| && hay[i..i + |needle|] == needle
  }

  /** `includes` fails if the needle is at no offset. */
  lemma AbsentIfNowhere(needle: string, hay: string)
    requires forall i: nat :: !At(needle, hay, i)
    ensures !Occurs(needle, hay)
  {
    if Occurs(needle, hay) {
      var i := OccursAtOffset(needle, hay);
    }
  }
}
