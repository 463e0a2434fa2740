/**
 * The string operations of Python 2 byte strings that the data server relies on:
 * `strip`, `split`, `int()`, `"%d"`, `"%08d"`, regular-expression based cleaning, and
 * the lexicographic order `sort()` uses on keys.
 */
module Text {
  import opened Wrappers

  /** The characters Python's `str.strip()` removes: space, tab, newline, vertical tab, form feed, return. */
  predicate IsSpace(c: char) {
    c == ' ' || c == '\t' || c == '\n' || c == '\r' || c == '\U{0B}' || c == '\U{0C}'
  }

  /** A string with no white space at either end, i.e. one `strip()` leaves alone. */
  predicate Trimmed(s: string) {
    s == [] || (!IsSpace(s[0]) && !IsSpace(s[|s| - 1]))
  }

  function TrimLeft(s: string): (r: string)
    ensures |r| <= |s|
    ensures r == [] || !IsSpace(r[0])
    ensures (s == [] || !IsSpace(s[0])) ==> r == s
  {
    if |s| > 0 && IsSpace(s[0]) then TrimLeft(s[1..]) else s
  }

  function TrimRight(s: string): (r: string)
    ensures |r| <= |s| && (r != [] ==> r[0] == s[0])
    ensures r == [] || !IsSpace(r[|r| - 1])
    ensures (s == [] || !IsSpace(s[|s| - 1])) ==> r == s
  {
    if |s| > 0 && IsSpace(s[|s| - 1]) then TrimRight(s[..|s| - 1]) else s
  }

  /** Python's `s.strip()`. */
  function Strip(s: string): (r: string)
    ensures Trimmed(r)
    ensures Trimmed(s) ==> r == s
    ensures |r| <= |s|
  {
    var l := TrimLeft(s);
    var r := TrimRight(l);
    assert r == [] || r[0] == l[0];
    r
  }

  /** Python's `p_comment.match(line)` with `p_comment = re.compile('^#')`. */
  predicate IsComment(s: string) {
    |s| > 0 && s[0] == '#'
  }

  /** Every character of `s` except those equal to `c` (Python's `s.replace(c, '')`). */
  function Remove(s: string, c: char): (r: string)
    ensures c !in r
    ensures c !in s ==> r == s
    ensures forall x :: x in r ==> x in s
  {
    if s == [] then [] else if s[0] == c then Remove(s[1..], c) else [s[0]] + Remove(s[1..], c)
  }

  /** Removing a character from a concatenation removes it from each piece. */
  lemma {:induction false} RemoveAppend(a: string, b: string, c: char)
    ensures Remove(a + b, c) == Remove(a, c) + Remove(b, c)
    decreases |a|
  {
    if a == [] {
      assert a + b == b;
    } else {
      assert (a + b)[0] == a[0] && (a + b)[1..] == a[1..] + b;
      RemoveAppend(a[1..], b, c);
      if a[0] != c {
        assert [a[0]] + (Remove(a[1..], c) + Remove(b, c)) == ([a[0]] + Remove(a[1..], c)) + Remove(b, c);
      }
    }
  }

  /** Python's `p_crlf.sub('', line)` with `p_crlf = re.compile(r'[\r\n]*')`: drops every CR and LF. */
  function DropCrLf(s: string): (r: string)
    ensures '\r' !in r && '\n' !in r
    ensures ('\r' !in s && '\n' !in s) ==> r == s
  {
    Remove(Remove(s, '\r'), '\n')
  }

  // ----------------------------------------------------------------------------------------
  // Splitting

  /** The position of the first `c` in `s`. */
  function FirstIndex(s: string, c: char): (i: nat)
    requires c in s
    ensures i < |s| && s[i] == c && c !in s[..i]
  {
    if s[0] == c then 0 else
      assert c in s[1..] by { var j :| 0 <= j < |s| && s[j] == c; assert s[1..][j - 1] == c; }
      var i := 1 + FirstIndex(s[1..], c);
      assert s[..i] == [s[0]] + s[1..][..i - 1];
      i
  }

  /** Python's `s.split(c)` for a one-character separator: the pieces between the separators. */
  function Split(s: string, c: char): (r: seq<string>)
    ensures |r| >= 1
    ensures forall i :: 0 <= i < |r| ==> c !in r[i]
    ensures c !in s ==> r == [s]
    decreases |s|
  {
    if c !in s then [s]
    else
      var i := FirstIndex(s, c);
      [s[..i]] + Split(s[i + 1..], c)
  }

  /** Python's `c.join(parts)`. */
  function Join(parts: seq<string>, c: char): string
    requires |parts| >= 1
  {
    if |parts| == 1 then parts[0] else parts[0] + [c] + Join(parts[1..], c)
  }

  /** Joining a piece in front of at least one more piece puts one separator between them. */
  lemma JoinFront(a: string, tail: seq<string>, c: char)
    requires |tail| >= 1
    ensures Join([a] + tail, c) == a + [c] + Join(tail, c)
  {
    var r := [a] + tail;
    assert r[0] == a && r[1..] == tail;
  }

  /** Splitting at the first separator: the piece before it, then the split of what follows. */
  lemma SplitAtFirst(s: string, c: char)
    requires c in s
    ensures var i := FirstIndex(s, c);
      && Split(s, c) == [s[..i]] + Split(s[i + 1..], c)
      && s == s[..i] + [c] + s[i + 1..]
  {
    var i := FirstIndex(s, c);
    assert s[..i] + [c] == s[..i + 1];
    assert s == s[..i + 1] + s[i + 1..];
  }

  /** Splitting and joining again gives back the original string. */
  lemma {:induction false} JoinSplit(s: string, c: char)
    ensures Join(Split(s, c), c) == s
    decreases |s|
  {
    if c in s {
      var i := FirstIndex(s, c);
      var rest := s[i + 1..];
      SplitAtFirst(s, c);
      JoinSplit(rest, c);
      JoinFront(s[..i], Split(rest, c), c);
    }
  }

  /** A string that starts with a piece free of the separator splits into that piece and the split of the rest. */
  lemma SplitFront(a: string, b: string, c: char)
    requires c !in a
    ensures Split(a + [c] + b, c) == [a] + Split(b, c)
  {
    var s := a + [c] + b;
    assert s[|a|] == c;
    var i := FirstIndex(s, c);
    assert forall j :: 0 <= j < |a| ==> s[j] == a[j];
    assert i == |a|;
    assert s[..i] == a;
    assert s[i + 1..] == b;
  }

  /** Joining pieces free of the separator and splitting again gives back the pieces. */
  lemma {:induction false} SplitJoin(parts: seq<string>, c: char)
    requires |parts| >= 1 && forall i :: 0 <= i < |parts| ==> c !in parts[i]
    ensures Split(Join(parts, c), c) == parts
    decreases |parts|
  {
    if |parts| > 1 {
      SplitJoin(parts[1..], c);
      SplitFront(parts[0], Join(parts[1..], c), c);
      assert parts == [parts[0]] + parts[1..];
    }
  }

  /** A string made of two pieces around one separator splits back into exactly those pieces. */
  lemma SplitPair(a: string, b: string, c: char)
    requires c !in a && c !in b
    ensures Split(a + [c] + b, c) == [a, b]
  {
    SplitFront(a, b, c);
  }

  /** A split into exactly two pieces means the string was those pieces around one separator. */
  lemma SplitTwo(s: string, c: char)
    requires |Split(s, c)| == 2
    ensures s == Split(s, c)[0] + [c] + Split(s, c)[1]
  {
    JoinSplit(s, c);
    JoinSplit(Split(s, c)[1], c);
    var r := Split(s, c);
    assert Join(r[1..], c) == r[1];
  }

  /** Python's `s.split(c, 1)` unpacked into two names: fails when `c` does not occur. */
  function SplitOnce(s: string, c: char): (r: Option<(string, string)>)
    ensures r.None? <==> c !in s
    ensures r.Some? ==> c !in r.value.0 && s == r.value.0 + [c] + r.value.1
  {
    if c in s then
      var i := FirstIndex(s, c);
      assert s == s[..i] + [c] + s[i + 1..];
      Some((s[..i], s[i + 1..]))
    else None
  }

  // ----------------------------------------------------------------------------------------
  // Integers

  predicate IsDigit(ch: char) {
    '0' <= ch <= '9'
  }

  predicate AllDigits(s: string) {
    forall i :: 0 <= i < |s| ==> IsDigit(s[i])
  }

  function DigitValue(ch: char): (d: nat)
    requires IsDigit(ch)
    ensures d < 10
  {
    (ch as int) - ('0' as int)
  }

  function DigitChar(d: nat): (ch: char)
    requires d < 10
    ensures IsDigit(ch) && DigitValue(ch) == d
  {
    (('0' as int) + d) as char
  }

  /** The value of a string of decimal digits, read most significant digit first. */
  function DigitsValue(s: string): nat
    requires AllDigits(s)
  {
    if s == [] then 0 else DigitsValue(s[..|s| - 1]) * 10 + DigitValue(s[|s| - 1])
  }

  /** Python's `"%d" % n` for `n >= 0`: the shortest decimal numeral. */
  function NatToString(n: nat): (r: string)
    ensures |r| >= 1 && AllDigits(r)
    ensures DigitsValue(r) == n
    ensures |r| > 1 ==> r[0] != '0'
  {
    if n < 10 then [DigitChar(n)]
    else
      var r := NatToString(n / 10) + [DigitChar(n % 10)];
      assert r[..|r| - 1] == NatToString(n / 10);
      r
  }

  /** Python's `"%d" % n`. */
  function IntToString(n: int): string {
    if n < 0 then "-" + NatToString(-n) else NatToString(n)
  }

  /** A printed integer is a line of its own: not blank, not a comment, no white space at either end. */
  lemma IntToStringShape(n: int)
    ensures var s := IntToString(n); |s| >= 1 && Trimmed(s) && s[0] != '#'
  {
    var d := NatToString(if n < 0 then -n else n);
    assert IsDigit(d[0]) && IsDigit(d[|d| - 1]);
    if n < 0 {
      assert IntToString(n)[|IntToString(n)| - 1] == d[|d| - 1];
    }
  }

  /** A printed integer holds no character other than digits and `-`. */
  lemma IntToStringExcludes(n: int, c: char)
    requires !IsDigit(c) && c != '-'
    ensures c !in IntToString(n)
  {
    var d := NatToString(if n < 0 then -n else n);
    DigitsExclude(d, c);
    if n < 0 {
      assert IntToString(n) == ['-'] + d;
    }
  }

  /** A numeral holds no character other than digits. */
  lemma DigitsExclude(s: string, c: char)
    requires AllDigits(s) && !IsDigit(c)
    ensures c !in s
  {
  }

  /**
   * Python 2's `int(s)` on a byte string: surrounding white space, an optional sign,
   * further white space, then decimal digits, so `int("- 5")` is -5.
   */
  function ParseInt(s: string): (r: Option<int>)
    ensures r.Some? ==> |Strip(s)| >= 1
  {
    var t := Strip(s);
    if |t| >= 1 && (t[0] == '-' || t[0] == '+') then
      var d := Strip(t[1..]);
      if |d| >= 1 && AllDigits(d) then
        var v: int := DigitsValue(d);
        Some(if t[0] == '-' then -v else v)
      else None
    else if |t| >= 1 && AllDigits(t) then Some(DigitsValue(t))
    else None
  }

  /** Reading back a printed integer gives the integer. */
  lemma ParseIntOfIntToString(n: int)
    ensures ParseInt(IntToString(n)) == Some(n)
  {
    if n < 0 {
      var d := NatToString(-n);
      var t := "-" + d;
      assert t[1..] == d;
      assert IsDigit(d[0]) && IsDigit(d[|d| - 1]);
      assert Strip(d) == d;
      assert Trimmed(t);
      assert Strip(t) == t;
    } else {
      var t := NatToString(n);
      assert IsDigit(t[0]) && IsDigit(t[|t| - 1]);
      assert Strip(t) == t;
    }
  }

  /** `int()` skips white space after the sign: `int("- 5")` is -5 and `int("+ 7")` is 7. */
  lemma SpaceAfterSign()
    ensures ParseInt("- 5") == Some(-5) && ParseInt("+ 7") == Some(7)
  {
    assert Strip("- 5") == "- 5" && Strip(" 5") == "5";
    assert Strip("+ 7") == "+ 7" && Strip(" 7") == "7";
  }

  /** A numeral without a leading zero is the one `NatToString` writes for its value. */
  lemma {:induction false} NatToStringOfNumeral(s: string)
    requires |s| >= 1 && AllDigits(s) && (|s| > 1 ==> s[0] != '0')
    ensures NatToString(DigitsValue(s)) == s
    decreases |s|
  {
    var p := s[..|s| - 1];
    if |s| == 1 {
      assert p == [];
      assert [DigitChar(DigitValue(s[0]))] == s;
    } else {
      NatToStringOfNumeral(p);
      assert DigitsValue(p) != 0 by {
        assert p[0] == s[0] != '0';
        assert NatToString(0) == "0";
      }
      var n := DigitsValue(s);
      assert n / 10 == DigitsValue(p) && n % 10 == DigitValue(s[|s| - 1]);
      assert s == p + [DigitChar(n % 10)];
    }
  }

  /** Python's `"%0*d" % (w, n)` for `n >= 0`: the numeral padded with leading zeros to at least `w` characters. */
  function ZeroPad(s: string, w: nat): (r: string)
    requires AllDigits(s)
    ensures AllDigits(r) && |r| >= w && |r| >= |s|
    decreases w - |s|
  {
    if |s| >= w then s else ZeroPad(['0'] + s, w)
  }

  /** A leading zero does not change the value of a numeral. */
  lemma {:induction false} LeadingZero(s: string)
    requires AllDigits(s)
    ensures AllDigits(['0'] + s) && DigitsValue(['0'] + s) == DigitsValue(s)
    decreases |s|
  {
    var z := ['0'] + s;
    if s != [] {
      assert z[..|z| - 1] == ['0'] + s[..|s| - 1];
      LeadingZero(s[..|s| - 1]);
    }
  }

  /** Zero padding keeps the value of a numeral. */
  lemma {:induction false} ZeroPadValue(s: string, w: nat)
    requires AllDigits(s)
    ensures DigitsValue(ZeroPad(s, w)) == DigitsValue(s)
    decreases w - |s|
  {
    if |s| < w {
      LeadingZero(s);
      ZeroPadValue(['0'] + s, w);
    }
  }

  /** Python's `"%08d" % n` for `n >= 0`. */
  function Pad8(n: nat): (r: string)
    ensures AllDigits(r) && |r| >= 8
  {
    ZeroPad(NatToString(n), 8)
  }

  /** Reading back an eight-digit padded numeral gives its number. */
  lemma ParseIntOfPad8(n: nat)
    ensures ParseInt(Pad8(n)) == Some(n)
  {
    var t := Pad8(n);
    ZeroPadValue(NatToString(n), 8);
    assert IsDigit(t[0]) && IsDigit(t[|t| - 1]);
    assert Trimmed(t);
  }

  // ----------------------------------------------------------------------------------------
  // Lexicographic order (Python 2 compares byte strings character by character)

  predicate Less(a: string, b: string)
    decreases |a|
  {
    if a == [] then b != []
    else if b == [] then false
    else if a[0] != b[0] then a[0] < b[0]
    else Less(a[1..], b[1..])
  }

  lemma {:induction false} LessIrreflexive(a: string)
    ensures !Less(a, a)
    decreases |a|
  {
    if a != [] { LessIrreflexive(a[1..]); }
  }

  lemma {:induction false} LessTransitive(a: string, b: string, c: string)
    requires Less(a, b) && Less(b, c)
    ensures Less(a, c)
    decreases |a|
  {
    if a != [] && b != [] && c != [] && a[0] == b[0] && b[0] == c[0] {
      LessTransitive(a[1..], b[1..], c[1..]);
    }
  }

  lemma {:induction false} LessTotal(a: string, b: string)
    requires a != b
    ensures Less(a, b) || Less(b, a)
    decreases |a|
  {
    if a != [] && b != [] && a[0] == b[0] {
      assert a == [a[0]] + a[1..] && b == [b[0]] + b[1..];
      LessTotal(a[1..], b[1..]);
    }
  }

  lemma LessAsymmetric(a: string, b: string)
    requires Less(a, b)
    ensures !Less(b, a)
  {
    if Less(b, a) {
      LessTransitive(a, b, a);
      LessIrreflexive(a);
    }
  }

  /** `k` is the least element of `s`. */
  predicate IsLeast(k: string, s: set<string>) {
    k in s && forall j :: j in s && j != k ==> Less(k, j)
  }

  lemma {:induction false} LeastExists(s: set<string>)
    requires s != {}
    ensures exists k :: IsLeast(k, s)
    decreases s
  {
    var x :| x in s;
    if s == {x} {
      assert IsLeast(x, s);
    } else {
      LeastExists(s - {x});
      var m :| IsLeast(m, s - {x});
      if Less(x, m) {
        forall j | j in s && j != x ensures Less(x, j) {
          if j != m { LessTransitive(x, m, j); }
        }
        assert IsLeast(x, s);
      } else {
        LessTotal(x, m);
        assert IsLeast(m, s);
      }
    }
  }

  lemma LeastUnique(k1: string, k2: string, s: set<string>)
    requires IsLeast(k1, s) && IsLeast(k2, s)
    ensures k1 == k2
  {
    if k1 != k2 { LessAsymmetric(k1, k2); }
  }

  predicate StrictlySorted(ks: seq<string>) {
    forall i, j :: 0 <= i < j < |ks| ==> Less(ks[i], ks[j])
  }

  /** The keys of a set in Python's sorted order (`keys.sort()`), as a specification. */
  ghost function SortedKeys(s: set<string>): (r: seq<string>)
    ensures StrictlySorted(r) && |r| == |s|
    ensures forall k :: k in r <==> k in s
    decreases s
  {
    if s == {} then []
    else
      LeastExists(s);
      var k :| IsLeast(k, s);
      var r := [k] + SortedKeys(s - {k});
      assert forall i :: 0 < i < |r| ==> r[i] in s - {k};
      r
  }

  /** The least key comes first, followed by the others in order. */
  lemma SortedKeysFirst(s: set<string>, k: string)
    requires IsLeast(k, s)
    ensures SortedKeys(s) == [k] + SortedKeys(s - {k})
  {
    var r := SortedKeys(s);
    assert IsLeast(r[0], s) by {
      forall j | j in s && j != r[0] ensures Less(r[0], j) {
        var i :| 0 <= i < |r| && r[i] == j;
      }
    }
    LeastUnique(k, r[0], s);
  }

  /** Taking the least remaining key off the front keeps a prefix of the sorted order. */
  lemma SortedKeysStep(ks: seq<string>, rest: set<string>, k: string)
    requires IsLeast(k, rest)
    ensures (ks + [k]) + SortedKeys(rest - {k}) == ks + SortedKeys(rest)
  {
    SortedKeysFirst(rest, k);
  }

  /** Computes Python's `keys = d.keys(); keys.sort()`. */
  method KeysInOrder<T>(m: map<string, T>) returns (ks: seq<string>)
    ensures ks == SortedKeys(m.Keys)
  {
    var rest := m.Keys;
    ks := [];
    while rest != {}
      invariant rest <= m.Keys
      invariant ks + SortedKeys(rest) == SortedKeys(m.Keys)
      decreases rest
    {
      LeastExists(rest);
      var k :| IsLeast(k, rest);
      SortedKeysStep(ks, rest, k);
      ks := ks + [k];
      rest := rest - {k};
    }
  }
}
