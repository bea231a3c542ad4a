/** String helpers shared by the model: `Array.prototype.join`, a one-character
    `String.prototype.split`, decimal rendering of numbers, and the whitespace
    set that `String.prototype.trim` removes. */
module Strings {

  /** `parts.join(sep)`. */
  function Join(parts: seq<string>, sep: string): string
  {
    if |parts| == 0 then ""
    else if |parts| == 1 then parts[0]
    else parts[0] + sep + Join(parts[1..], sep)
  }

  /** `s.split(c)` for a one-character separator: the maximal pieces of `s`
      between occurrences of `c`; there is always at least one piece. */
  function Split(s: string, c: char): (r: seq<string>)
    ensures |r| >= 1
    ensures forall i :: 0 <= i < |r| ==> c !in r[i]
    decreases |s|
  {
    if |s| == 0 then [""]
    else
      var rest := Split(s[1..], c);
      if s[0] == c then [""] + rest
      else [[s[0]] + rest[0]] + rest[1..]
  }

  /** The length of a joined string: every part plus one separator between
      each pair of neighbouring parts. */
  lemma {:induction false} JoinLength(parts: seq<string>, sep: string)
    requires |parts| >= 1
    ensures |Join(parts, sep)| == TotalLength(parts) + (|parts| - 1) * |sep|
    decreases |parts|
  {
    if |parts| > 1 {
      JoinLength(parts[1..], sep);
      assert TotalLength(parts) == |parts[0]| + TotalLength(parts[1..]);
    }
  }

  function TotalLength(parts: seq<string>): nat
  {
    if |parts| == 0 then 0 else |parts[0]| + TotalLength(parts[1..])
  }

  /** Joining two non-empty lists puts one separator between them. */
  lemma {:induction false} JoinAppend(xs: seq<string>, ys: seq<string>, sep: string)
    requires |xs| >= 1 && |ys| >= 1
    ensures Join(xs + ys, sep) == Join(xs, sep) + sep + Join(ys, sep)
    decreases |xs|
  {
    if |xs| == 1 {
      assert (xs + ys)[1..] == ys;
    } else {
      assert (xs + ys)[1..] == xs[1..] + ys;
      JoinAppend(xs[1..], ys, sep);
    }
  }

  /** A part that itself contains the separator joins like the two parts
      on either side of that separator. */
  lemma JoinSplitPart(a: seq<string>, x: string, y: string, b: seq<string>, sep: string)
    requires |a| >= 1 && |b| >= 1
    ensures Join(a + [x + sep + y] + b, sep) == Join(a + [x, y] + b, sep)
  {
    var z, ja, jb := x + sep + y, Join(a, sep), Join(b, sep);
    calc {
      Join(a + [z] + b, sep);
      { assert a + [z] + b == a + ([z] + b); }
      Join(a + ([z] + b), sep);
      { JoinAppend(a, [z] + b, sep); }
      ja + sep + Join([z] + b, sep);
      { JoinAppend([z], b, sep); }
      ja + sep + (z + sep + jb);
      { JoinTwo(x, y, sep); }
      ja + sep + (Join([x, y], sep) + sep + jb);
      { JoinAppend([x, y], b, sep); }
      ja + sep + Join([x, y] + b, sep);
      { JoinAppend(a, [x, y] + b, sep); }
      Join(a + ([x, y] + b), sep);
      { assert a + [x, y] + b == a + ([x, y] + b); }
      Join(a + [x, y] + b, sep);
    }
  }

  lemma JoinTwo(x: string, y: string, sep: string)
    ensures Join([x, y], sep) == x + sep + y
  {
    assert [x, y][1..] == [y];
  }

  /** Where part k starts in `Join(parts, sep)`. */
  function PartOffset(parts: seq<string>, sep: string, k: nat): nat
    requires k < |parts|
    decreases k
  {
    if k == 0 then 0 else |parts[0]| + |sep| + PartOffset(parts[1..], sep, k - 1)
  }

  /** The middle of a three-way concatenation sits right after the first part. */
  lemma InfixOfConcat(a: string, b: string, c: string)
    ensures (a + b + c)[|a|..|a| + |b|] == b
  {
  }

  /** An infix of an infix is an infix, at the summed offset. */
  lemma InfixOfInfix(s: string, off: nat, part: string, inner: nat, mid: string)
    requires off + |part| <= |s| && s[off..off + |part|] == part
    requires inner + |mid| <= |part| && part[inner..inner + |mid|] == mid
    ensures s[off + inner..off + inner + |mid|] == mid
  {
    var t := s[off + inner..off + inner + |mid|];
    forall k | 0 <= k < |mid| ensures t[k] == mid[k] {
      assert mid[k] == part[inner..inner + |mid|][k] == part[inner + k];
      assert part[inner + k] == s[off..off + |part|][inner + k] == s[off + inner + k];
    }
  }

  /** Part k occurs in the joined string at its offset. */
  lemma {:induction false} JoinPartAt(parts: seq<string>, sep: string, k: nat)
    requires k < |parts|
    ensures PartOffset(parts, sep, k) + |parts[k]| <= |Join(parts, sep)|
    ensures Join(parts, sep)[PartOffset(parts, sep, k)..PartOffset(parts, sep, k) + |parts[k]|] == parts[k]
    decreases k
  {
    var j := Join(parts, sep);
    if k == 0 {
      if |parts| > 1 {
        assert j == parts[0] + (sep + Join(parts[1..], sep));
      }
    } else {
      var rest := Join(parts[1..], sep);
      JoinPartAt(parts[1..], sep, k - 1);
      var head := parts[0] + sep;
      assert j == head + rest;
      var off := PartOffset(parts[1..], sep, k - 1);
      assert j[|head| + off..|head| + off + |parts[k]|] == rest[off..off + |parts[k]|];
    }
  }

  /** Parts occur in the joined string in list order, a separator apart. */
  lemma {:induction false} PartOffsetIncreasing(parts: seq<string>, sep: string, j: nat, k: nat)
    requires j < k < |parts|
    ensures PartOffset(parts, sep, j) + |parts[j]| + |sep| <= PartOffset(parts, sep, k)
    decreases j
  {
    if j > 0 {
      PartOffsetIncreasing(parts[1..], sep, j - 1, k - 1);
    }
  }

  /** A character that occurs in no part and not in the separator does not
      occur in the joined string. */
  lemma {:induction false} JoinAvoids(parts: seq<string>, sep: string, ch: char)
    requires forall i :: 0 <= i < |parts| ==> ch !in parts[i]
    requires ch !in sep
    ensures ch !in Join(parts, sep)
    decreases |parts|
  {
    if |parts| > 1 {
      JoinAvoids(parts[1..], sep, ch);
    }
  }

  /** Splitting a separator-free prefix glues it onto the first piece of the rest. */
  lemma {:induction false} SplitPrefix(a: string, t: string, c: char)
    requires c !in a
    ensures Split(a + t, c) == [a + Split(t, c)[0]] + Split(t, c)[1..]
    decreases |a|
  {
    if |a| == 0 {
      var r := Split(t, c);
      assert a + t == t && a + r[0] == r[0];
      assert r == [r[0]] + r[1..];
    } else {
      assert (a + t)[0] == a[0];
      assert (a + t)[1..] == a[1..] + t;
      SplitPrefix(a[1..], t, c);
      assert [a[0]] + (a[1..] + Split(t, c)[0]) == a + Split(t, c)[0];
    }
  }

  /** Splitting a joined list recovers it, provided no part contains the separator. */
  lemma {:induction false} SplitJoin(parts: seq<string>, c: char)
    requires |parts| >= 1
    requires forall i :: 0 <= i < |parts| ==> c !in parts[i]
    ensures Split(Join(parts, [c]), c) == parts
    decreases |parts|
  {
    if |parts| == 1 {
      SplitPrefix(parts[0], "", c);
      assert parts[0] + "" == parts[0];
    } else {
      var rest := Join(parts[1..], [c]);
      SplitJoin(parts[1..], c);
      assert Join(parts, [c]) == parts[0] + ([c] + rest);
      SplitPrefix(parts[0], [c] + rest, c);
      assert ([c] + rest)[1..] == rest;
      assert Split([c] + rest, c) == [""] + parts[1..];
      assert parts[0] + "" == parts[0];
      assert parts == [parts[0]] + parts[1..];
    }
  }

  /** Joining the pieces of a split with the same separator gives the string back. */
  lemma {:induction false} JoinSplit(s: string, c: char)
    ensures Join(Split(s, c), [c]) == s
    decreases |s|
  {
    if |s| > 0 {
      var rest := Split(s[1..], c);
      JoinSplit(s[1..], c);
      if s[0] == c {
        assert ([""] + rest)[1..] == rest;
      } else if |rest| == 1 {
        assert [s[0]] + rest[0] == s;
      } else {
        var r := [[s[0]] + rest[0]] + rest[1..];
        assert r[1..] == rest[1..];
        assert Join(rest, [c]) == rest[0] + [c] + Join(rest[1..], [c]);
      }
    }
  }

  function Digit(d: nat): (ch: char)
    requires d < 10
    ensures '0' <= ch <= '9'
  {
    "0123456789"[d]
  }

  function DigitValue(ch: char): nat
  {
    if '0' <= ch <= '9' then (ch - '0') as nat else 0
  }

  predicate IsDigits(s: string)
  {
    forall i :: 0 <= i < |s| ==> '0' <= s[i] <= '9'
  }

  /** `String(n)` for a non-negative integer: its decimal digits, no leading zero. */
  function NatToString(n: nat): (r: string)
    ensures |r| >= 1 && IsDigits(r)
    ensures |r| > 1 ==> r[0] != '0'
    decreases n
  {
    if n < 10 then [Digit(n)] else NatToString(n / 10) + [Digit(n % 10)]
  }

  /** The value of a string of decimal digits. */
  function ParseNat(s: string): nat
    decreases |s|
  {
    if |s| == 0 then 0 else ParseNat(s[..|s| - 1]) * 10 + DigitValue(s[|s| - 1])
  }

  lemma {:induction false} ParseNatToString(n: nat)
    ensures ParseNat(NatToString(n)) == n
    decreases n
  {
    var s := NatToString(n);
    if n >= 10 {
      ParseNatToString(n / 10);
      assert s[..|s| - 1] == NatToString(n / 10);
      assert DigitValue(s[|s| - 1]) == n % 10;
    } else {
      assert DigitValue(s[0]) == n;
    }
  }

  /** The characters `String.prototype.trim` removes: the ECMAScript
      WhiteSpace and LineTerminator sets. */
  predicate IsJsWhitespace(ch: char)
  {
    || ch == '\t' || ch == '\n' || ch == '\U{B}' || ch == '\U{C}' || ch == '\r'
    || ch == ' ' || ch == '\U{A0}' || ch == '\U{1680}'
    || ('\U{2000}' <= ch <= '\U{200A}')
    || ch == '\U{2028}' || ch == '\U{2029}' || ch == '\U{202F}' || ch == '\U{205F}'
    || ch == '\U{3000}' || ch == '\U{FEFF}'
  }

  /** `s.trim().length === 0`. */
  predicate IsBlank(s: string)
  {
    forall i :: 0 <= i < |s| ==> IsJsWhitespace(s[i])
  }

  function Min(a: int, b: int): int
  {
    if a <= b then a else b
  }
}
