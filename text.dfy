/** Strings as the JavaScript source sees them, modelled as `seq<char>`:
    one element per Unicode scalar value (a JavaScript string counts a
    character outside the Basic Multilingual Plane as two code units; the
    model does not). With the whitespace set that
    `String.prototype.trim` removes, trimming, joining and the
    "non-whitespace content" of a string. */
module Text {

  type String = seq<char>

  datatype Option<T> = None | Some(value: T)

  /** ECMAScript WhiteSpace and LineTerminator code points: exactly what
      `trim()` strips from both ends. */
  const WhiteSpace: set<char> := {
    '\t', '\n', '\U{B}', '\U{C}', '\r', ' ', '\U{A0}', '\U{1680}',
    '\U{2000}', '\U{2001}', '\U{2002}', '\U{2003}', '\U{2004}', '\U{2005}',
    '\U{2006}', '\U{2007}', '\U{2008}', '\U{2009}', '\U{200A}',
    '\U{2028}', '\U{2029}', '\U{202F}', '\U{205F}', '\U{3000}', '\U{FEFF}'
  }

  predicate IsWs(c: char) { c in WhiteSpace }

  predicate AllWs(s: String) { forall i :: 0 <= i < |s| ==> IsWs(s[i]) }

  /** Neither end of `s` is whitespace: `s.trim() === s`. */
  predicate Trimmed(s: String) { s == [] || (!IsWs(s[0]) && !IsWs(s[|s| - 1])) }

  /** Number of leading whitespace characters `trim()` drops. */
  function TrimOffset(s: String): (k: nat)
    ensures k <= |s|
    ensures forall i :: 0 <= i < k ==> IsWs(s[i])
    ensures k < |s| ==> !IsWs(s[k])
  {
    if |s| > 0 && IsWs(s[0]) then 1 + TrimOffset(s[1..]) else 0
  }

  /** Index just past the last character `trim()` keeps: everything from it
      on is whitespace, and the character before it is not. */
  function TrimEndIndex(s: String): (j: nat)
    ensures j <= |s|
    ensures forall i :: j <= i < |s| ==> IsWs(s[i])
    ensures j > 0 ==> !IsWs(s[j - 1])
  {
    if |s| > 0 && IsWs(s[|s| - 1]) then TrimEndIndex(s[..|s| - 1]) else |s|
  }

  /** `s.trim()`: the slice of `s` between its leading and trailing
      whitespace runs. */
  function Trim(s: String): (r: String)
    ensures Trimmed(r)
    ensures TrimOffset(s) + |r| <= |s| && r == s[TrimOffset(s)..TrimOffset(s) + |r|]
    ensures AllWs(s[..TrimOffset(s)]) && AllWs(s[TrimOffset(s) + |r|..])
  {
    var k := TrimOffset(s);
    if k == |s| then [] else s[k..TrimEndIndex(s)]
  }

  /** The characters of `s` that are not whitespace, in order. */
  function NonWs(s: String): (r: String)
    ensures |r| <= |s|
    ensures forall i :: 0 <= i < |r| ==> !IsWs(r[i])
  {
    if s == [] then [] else (if IsWs(s[0]) then [] else [s[0]]) + NonWs(s[1..])
  }

  lemma {:induction false} NonWsAppend(a: String, b: String)
    ensures NonWs(a + b) == NonWs(a) + NonWs(b)
  {
    if a != [] {
      TailOfAppend(a, b);
      NonWsAppend(a[1..], b);
      var h := if IsWs(a[0]) then [] else [a[0]];
      AppendAssoc(h, NonWs(a[1..]), NonWs(b));
    } else {
      assert a + b == b;
    }
  }

  lemma {:induction false} NonWsOfAllWs(s: String)
    requires AllWs(s)
    ensures NonWs(s) == []
  {
    if s != [] { NonWsOfAllWs(s[1..]); }
  }

  /** A string has no non-whitespace content exactly when it is all whitespace. */
  lemma {:induction false} NonWsEmptyIff(s: String)
    ensures NonWs(s) == [] <==> AllWs(s)
  {
    if s != [] {
      NonWsEmptyIff(s[1..]);
      if !IsWs(s[0]) { assert NonWs(s)[0] == s[0]; }
      else {
        assert forall i :: 1 <= i < |s| ==> s[i] == s[1..][i - 1];
      }
    }
  }

  /** Whitespace around a string adds no content. */
  lemma NonWsFrame(pre: String, mid: String, post: String)
    requires AllWs(pre) && AllWs(post)
    ensures NonWs(pre + mid + post) == NonWs(mid)
  {
    NonWsAppend(pre + mid, post);
    NonWsAppend(pre, mid);
    NonWsOfAllWs(pre);
    NonWsOfAllWs(post);
    assert [] + NonWs(mid) + [] == NonWs(mid);
  }

  /** Trimming loses only whitespace. */
  lemma TrimKeepsContent(s: String)
    ensures NonWs(Trim(s)) == NonWs(s)
  {
    var k := TrimOffset(s);
    var j := k + |Trim(s)|;
    SliceSplit(s, k, j);
    NonWsFrame(s[..k], s[k..j], s[j..]);
  }

  lemma TrimOfTrimmed(s: String)
    requires Trimmed(s)
    ensures Trim(s) == s
  {
    if s != [] {
      assert TrimOffset(s) == 0;
      assert TrimEndIndex(s) == |s|;
    }
  }

  /** A trimmed non-empty string has non-whitespace content. */
  lemma TrimmedHasContent(s: String)
    requires Trimmed(s) && s != []
    ensures NonWs(s) != []
  {
    assert NonWs(s)[0] == s[0];
  }

  /** `parts.join(sep)` */
  function Join(parts: seq<String>, sep: String): (r: String)
  {
    if |parts| == 0 then []
    else if |parts| == 1 then parts[0]
    else parts[0] + sep + Join(parts[1..], sep)
  }

  /** Concatenation of the non-whitespace content of each part. */
  function Content(parts: seq<String>): (r: String)
    ensures |parts| == 1 ==> r == NonWs(parts[0])
  {
    if parts == [] then [] else NonWs(parts[0]) + Content(parts[1..])
  }

  lemma ContentCons(h: String, t: seq<String>)
    ensures Content([h] + t) == NonWs(h) + Content(t)
  {
    assert ([h] + t)[0] == h && ([h] + t)[1..] == t;
  }

  lemma {:induction false} ContentAppend(a: seq<String>, b: seq<String>)
    ensures Content(a + b) == Content(a) + Content(b)
  {
    if a != [] {
      TailOfAppend(a, b);
      ContentAppend(a[1..], b);
      assert Content(a + b) == NonWs(a[0]) + (Content(a[1..]) + Content(b));
    } else {
      assert a + b == b;
    }
  }

  /** Joining with a whitespace separator adds no content. */
  lemma {:induction false} JoinContent(parts: seq<String>, sep: String)
    requires AllWs(sep)
    ensures NonWs(Join(parts, sep)) == Content(parts)
  {
    if |parts| > 1 {
      JoinContent(parts[1..], sep);
      NonWsAppend(parts[0] + sep, Join(parts[1..], sep));
      NonWsAppend(parts[0], sep);
      NonWsOfAllWs(sep);
    }
  }

  lemma AppendAssoc<T>(a: seq<T>, b: seq<T>, c: seq<T>)
    ensures a + (b + c) == (a + b) + c
  {
  }

  lemma HeadTail<T>(s: seq<T>)
    requires |s| >= 1
    ensures [s[0]] + s[1..] == s
  {
  }

  lemma TailOfAppend<T>(a: seq<T>, b: seq<T>)
    requires a != []
    ensures (a + b)[0] == a[0] && (a + b)[1..] == a[1..] + b
  {
  }

  lemma SliceSplit<T>(s: seq<T>, i: nat, j: nat)
    requires i <= j <= |s|
    ensures s == s[..i] + s[i..j] + s[j..]
  {
  }

  lemma SplitAt<T>(s: seq<T>, k: nat)
    requires k <= |s|
    ensures s[..k] + s[k..] == s
  {
  }

  /** Where the parts of `[x] + a + b + [y]` sit in it. */
  lemma FourPartsEnds<T>(x: T, a: seq<T>, b: seq<T>, y: T)
    ensures |[x] + a + b + [y]| == 2 + |a| + |b|
    ensures ([x] + a + b + [y])[0] == x && ([x] + a + b + [y])[1 + |a| + |b|] == y
  {
  }

  lemma FourPartsFirst<T>(x: T, a: seq<T>, b: seq<T>, y: T, k: nat)
    requires k < |a|
    ensures ([x] + a + b + [y])[1 + k] == a[k]
  {
    assert ([x] + a + b + [y])[1 + k] == ([x] + a + b)[1 + k] == ([x] + a)[1 + k];
  }

  lemma FourPartsSecond<T>(x: T, a: seq<T>, b: seq<T>, y: T)
    ensures ([x] + a + b + [y])[1 + |a|..1 + |a| + |b|] == b
  {
    var s := [x] + a + b + [y];
    forall k | 0 <= k < |b| ensures s[1 + |a| + k] == b[k] {
      assert s[1 + |a| + k] == ([x] + a + b)[1 + |a| + k];
    }
  }

  function Min(a: nat, b: nat): nat { if a <= b then a else b }

  lemma PrefixExtend<T>(s: seq<T>, i: nat)
    requires i < |s|
    ensures s[..i + 1] == s[..i] + [s[i]]
  {
  }

  lemma PrefixFull<T>(s: seq<T>)
    ensures s[..|s|] == s
  {
  }

  /** Plain concatenation of strings (`parts.join("")`). */
  function Concat(parts: seq<String>): (r: String)
  {
    if parts == [] then [] else parts[0] + Concat(parts[1..])
  }

  lemma {:induction false} ConcatAppend(a: seq<String>, b: seq<String>)
    ensures Concat(a + b) == Concat(a) + Concat(b)
  {
    if a != [] {
      TailOfAppend(a, b);
      ConcatAppend(a[1..], b);
      assert Concat(a + b) == a[0] + (Concat(a[1..]) + Concat(b));
    } else {
      assert a + b == b;
    }
  }

  /** Running the parts together keeps exactly their non-whitespace content. */
  lemma {:induction false} ConcatContent(parts: seq<String>)
    ensures NonWs(Concat(parts)) == Content(parts)
  {
    if parts != [] {
      ConcatContent(parts[1..]);
      NonWsAppend(parts[0], Concat(parts[1..]));
    }
  }

  /** Trimming every part keeps the content of the whole. */
  lemma {:induction false} ContentOfTrims(parts: seq<String>, trims: seq<String>)
    requires |trims| == |parts|
    requires forall i :: 0 <= i < |parts| ==> trims[i] == Trim(parts[i])
    ensures Content(trims) == Content(parts)
  {
    if parts != [] {
      ContentOfTrims(parts[1..], trims[1..]);
      TrimKeepsContent(parts[0]);
    }
  }

  predicate IsDigit(c: char) { '0' <= c <= '9' }

  predicate AllDigits(s: String) { forall i :: 0 <= i < |s| ==> IsDigit(s[i]) }

  function DigitChar(d: nat): (c: char)
    requires d < 10
    ensures IsDigit(c) && c as int - '0' as int == d
  {
    ('0' as int + d) as char
  }

  /** The decimal numeral of `n` as a template literal `${n}` prints it:
      no sign, no leading zero. */
  function DecimalString(n: nat): (s: String)
    ensures s != [] && AllDigits(s)
    ensures s[0] == '0' ==> n == 0
  {
    if n < 10 then [DigitChar(n)] else DecimalString(n / 10) + [DigitChar(n % 10)]
  }

  /** The value of a string of decimal digits. */
  function ParseDecimal(s: String): nat
    requires AllDigits(s)
  {
    if s == [] then 0 else ParseDecimal(s[..|s| - 1]) * 10 + (s[|s| - 1] as int - '0' as int)
  }

  /** Reading a printed numeral back gives the number: numerals of distinct
      numbers differ. */
  lemma {:induction false} DecimalRoundTrip(n: nat)
    ensures ParseDecimal(DecimalString(n)) == n
  {
    var s := DecimalString(n);
    if n >= 10 {
      DecimalRoundTrip(n / 10);
      assert s[..|s| - 1] == DecimalString(n / 10);
    }
  }

  lemma DecimalInjective(m: nat, n: nat)
    requires DecimalString(m) == DecimalString(n)
    ensures m == n
  {
    DecimalRoundTrip(m);
    DecimalRoundTrip(n);
  }
}
