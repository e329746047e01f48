/** The Go text functions the version strings go through: `%d`, strconv.Atoi, strings.Split on one
    character and strings.Fields. Text is a sequence of Unicode scalar values. */
module Text {
  import opened Wire

  /** Go's `int` on a 64-bit platform. */
  type int64 = x: int | -0x8000_0000_0000_0000 <= x < 0x8000_0000_0000_0000

  // ----- Integers -----

  predicate IsDigit(c: char) { '0' <= c <= '9' }

  function DigitOf(c: char): nat
    requires IsDigit(c)
  {
    c as int - '0' as int
  }

  function Decimal(n: nat): (s: string)
    ensures s != "" && forall i :: 0 <= i < |s| ==> IsDigit(s[i])
  {
    (if n < 10 then "" else Decimal(n / 10)) + [('0' as int + n % 10) as char]
  }

  /** `%d`. */
  function Format(x: int): (s: string)
    ensures s != "" && forall i :: 0 <= i < |s| ==> IsDigit(s[i]) || s[i] == '-'
  {
    if x < 0 then "-" + Decimal(-x) else Decimal(x)
  }

  predicate AllDigits(s: string) { forall i :: 0 <= i < |s| ==> IsDigit(s[i]) }

  function Value(s: string): nat
    requires AllDigits(s)
  {
    if s == "" then 0 else Value(s[..|s| - 1]) * 10 + DigitOf(s[|s| - 1])
  }

  /** An optional sign, at least one digit, and a value in range. */
  function Atoi(s: string): Option<int64> {
    var signed := s != "" && (s[0] == '-' || s[0] == '+');
    var digits := if signed then s[1..] else s;
    if digits == "" || !AllDigits(digits) then None
    else
      var n: int := Value(digits);
      var v := if signed && s[0] == '-' then -n else n;
      if -0x8000_0000_0000_0000 <= v < 0x8000_0000_0000_0000 then Some(v) else None
  }

  lemma {:induction false} DecimalValue(n: nat)
    ensures Value(Decimal(n)) == n
  {
    if n >= 10 {
      DecimalValue(n / 10);
    }
    var s := Decimal(n);
    assert s[..|s| - 1] == if n < 10 then "" else Decimal(n / 10);
  }

  lemma FormatRoundTrip(x: int64)
    ensures Atoi(Format(x)) == Some(x)
  {
    hide Decimal, Value;
    var n: int := x;
    var digits := Decimal(if n < 0 then -n else n);
    DecimalValue(if n < 0 then -n else n);
    assert IsDigit(digits[0]) && ("-" + digits)[1..] == digits;
  }

  // ----- Splitting at a separator -----

  function Split(s: string, sep: char): (r: seq<string>)
    ensures r != []
  {
    if s == "" then [""] else Prefix(s[0], sep, Split(s[1..], sep))
  }

  /** One more character before the pieces. */
  function Prefix(c: char, sep: char, pieces: seq<string>): (r: seq<string>)
    requires pieces != []
    ensures r != []
  {
    if c == sep then [""] + pieces else [[c] + pieces[0]] + pieces[1..]
  }

  lemma PrefixSeparator(sep: char, x: seq<string>)
    requires x != []
    ensures Prefix(sep, sep, x) == [""] + x
  {
  }

  lemma PrefixConcat(c: char, sep: char, x: seq<string>, y: seq<string>)
    requires x != []
    ensures Prefix(c, sep, x + y) == Prefix(c, sep, x) + y
  {
    assert (x + y)[1..] == x[1..] + y;
  }

  lemma {:induction false} SplitConcat(a: string, sep: char, b: string)
    ensures Split(a + ([sep] + b), sep) == Split(a, sep) + Split(b, sep)
  {
    hide Prefix;
    var s := a + ([sep] + b);
    if a == "" {
      PrefixSeparator(sep, Split(b, sep));
      assert s[0] == sep && s[1..] == b;
    } else {
      SplitConcat(a[1..], sep, b);
      assert s[0] == a[0] && s[1..] == a[1..] + ([sep] + b);
      PrefixConcat(a[0], sep, Split(a[1..], sep), Split(b, sep));
    }
  }

  lemma {:induction false} SplitNone(s: string, sep: char)
    requires sep !in s
    ensures Split(s, sep) == [s]
  {
    if s != "" {
      SplitNone(s[1..], sep);
      assert [s[0]] + s[1..] == s;
    }
  }

  /** The pieces consist of the other characters. */
  lemma {:induction false} SplitPieces(s: string, sep: char, i: nat)
    requires i < |Split(s, sep)|
    ensures forall c :: c in Split(s, sep)[i] ==> c in s && c != sep
  {
    if s != "" {
      var rest := Split(s[1..], sep);
      if s[0] == sep {
        if i > 0 {
          SplitPieces(s[1..], sep, i - 1);
        }
      } else {
        SplitPieces(s[1..], sep, i);
      }
    }
  }

  /** Only a string without the separator comes back whole. */
  lemma {:induction false} SplitOne(s: string, sep: char)
    requires |Split(s, sep)| == 1
    ensures sep !in s
  {
    if s != "" && s[0] != sep {
      SplitOne(s[1..], sep);
    }
  }

  // ----- Splitting at white space -----

  /** Unicode white space, as unicode.IsSpace has it. */
  predicate IsSpace(c: char) {
    || '\U{9}' <= c <= '\U{d}' || c == ' ' || c == '\U{85}' || c == '\U{a0}' || c == '\U{1680}'
    || '\U{2000}' <= c <= '\U{200a}' || c == '\U{2028}' || c == '\U{2029}' || c == '\U{202f}'
    || c == '\U{205f}' || c == '\U{3000}'
  }

  predicate NoSpace(s: string) { forall c :: c in s ==> !IsSpace(c) }

  /** A field: not empty, no white space in it. */
  predicate IsWord(s: string) { s != "" && NoSpace(s) }

  /** The length of the leading word. */
  function WordLen(s: string): (n: nat)
    ensures n <= |s| && (s != "" && !IsSpace(s[0]) ==> n > 0)
  {
    if s == "" || IsSpace(s[0]) then 0 else 1 + WordLen(s[1..])
  }

  function Fields(s: string): seq<string>
    decreases |s|
  {
    if s == "" then []
    else if IsSpace(s[0]) then Fields(s[1..])
    else [s[..WordLen(s)]] + Fields(s[WordLen(s)..])
  }

  lemma {:induction false} LeadingWord(s: string)
    ensures NoSpace(s[..WordLen(s)])
    ensures WordLen(s) < |s| ==> IsSpace(s[WordLen(s)])
  {
    if s != "" && !IsSpace(s[0]) {
      LeadingWord(s[1..]);
      assert s[..WordLen(s)] == [s[0]] + s[1..][..WordLen(s[1..])];
    }
  }

  lemma {:induction false} WordLenConcat(a: string, b: string)
    requires b == "" || IsSpace(b[0])
    ensures WordLen(a + b) == WordLen(a)
  {
    if a == "" {
      assert a + b == b;
    } else {
      assert (a + b)[1..] == a[1..] + b;
      WordLenConcat(a[1..], b);
    }
  }

  lemma {:induction false} FieldsConcat(a: string, space: char, b: string)
    requires IsSpace(space)
    ensures Fields(a + ([space] + b)) == Fields(a) + Fields(b)
    decreases |a|
  {
    var s, tail := a + ([space] + b), [space] + b;
    if a == "" {
      assert s == tail && s[1..] == b;
    } else if IsSpace(a[0]) {
      assert s[0] == a[0] && s[1..] == a[1..] + tail;
      FieldsConcat(a[1..], space, b);
    } else {
      var n := WordLen(a);
      WordLenConcat(a, tail);
      assert s[0] == a[0] && s[..n] == a[..n] && s[n..] == a[n..] + tail;
      FieldsConcat(a[n..], space, b);
    }
  }

  lemma {:induction false} WordLenWord(s: string)
    requires NoSpace(s)
    ensures WordLen(s) == |s|
  {
    if s != "" {
      assert s[0] in s;
      WordLenWord(s[1..]);
    }
  }

  lemma FieldsWord(s: string)
    requires IsWord(s)
    ensures Fields(s) == [s]
  {
    WordLenWord(s);
    assert s[..|s|] == s && s[|s|..] == "";
  }

  /** Every field is a word. */
  lemma {:induction false} FieldsAreWords(s: string)
    ensures forall i :: 0 <= i < |Fields(s)| ==> IsWord(Fields(s)[i])
    decreases |s|
  {
    if s != "" {
      if IsSpace(s[0]) {
        FieldsAreWords(s[1..]);
      } else {
        LeadingWord(s);
        FieldsAreWords(s[WordLen(s)..]);
      }
    }
  }
}
