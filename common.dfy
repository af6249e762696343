/** Vocabulary shared by every part of the front end: optional values, the way an
    awaited HTTP call settles, the JavaScript string operations the pages rely on
    (`trim`, `toLowerCase`, `includes`, `startsWith`, `toString`, `Number`,
    `parseInt`, `length`) and `Array.prototype.filter` with its laws. */
module Common {

  datatype Option<+T> = None | Some(value: T)

  datatype Result<+R, +E> = Success(value: R) | Failure(error: E)

  /** How an awaited call on the shared HTTP client settles.
      `HttpError`: the server answered outside 2xx (`error.response` is set);
      `serverMessage` is `error.response.data.message` when the body has one and
      `message` is the client's own `error.message`.
      `NoResponse`: the request left but nothing came back (`error.request` only).
      `SetupError`: neither is set: the request could not be built, or code on the
      client threw before any request was made (a `TypeError`, for one). */
  datatype Outcome<+T> =
    | Ok(data: T)
    | HttpError(status: int, serverMessage: Option<string>, message: string)
    | NoResponse(message: string)
    | SetupError(message: string)

  /** JavaScript truthiness of an optional string: present and not "". */
  predicate Truthy(s: Option<string>)
  {
    s.Some? && s.value != ""
  }

  /** The server's message when the failure carries a non-empty one. */
  predicate HasServerMessage<T>(o: Outcome<T>)
  {
    o.HttpError? && Truthy(o.serverMessage)
  }

  /** `err.response?.data?.message || fallback`, the message most forms show. */
  function ServerMessageOr<T>(o: Outcome<T>, fallback: string): (m: string)
    ensures HasServerMessage(o) ==> m == o.serverMessage.value
    ensures !HasServerMessage(o) ==> m == fallback
    ensures fallback != "" ==> m != ""
  {
    if HasServerMessage(o) then o.serverMessage.value else fallback
  }

  // ---------------------------------------------------------------------------
  // Strings

  /** `p` is a prefix of `s` (`s.startsWith(p)`). */
  predicate StartsWith(s: string, p: string)
  {
    |p| <= |s| && s[..|p|] == p
  }

  /** `s.includes(q)`: `q` occurs in `s` at some offset. */
  predicate Includes(s: string, q: string)
    decreases |s|
  {
    StartsWith(s, q) || (|s| > 0 && Includes(s[1..], q))
  }

  /** `q` occurs in `s` at offset `k`. */
  predicate OccursAt(s: string, q: string, k: int)
  {
    0 <= k <= |s| - |q| && s[k..k + |q|] == q
  }

  /** `Includes` holds exactly when `q` occurs at some offset of `s`. */
  lemma {:induction false} IncludesAt(s: string, q: string)
    ensures Includes(s, q) <==> exists k :: OccursAt(s, q, k)
    decreases |s|
  {
    if |s| > 0 {
      IncludesAt(s[1..], q);
    }
    if Includes(s, q) {
      if StartsWith(s, q) {
        assert OccursAt(s, q, 0);
      } else {
        var k :| OccursAt(s[1..], q, k);
        assert s[1..][k..k + |q|] == s[k + 1..k + 1 + |q|];
        assert OccursAt(s, q, k + 1);
      }
    }
    forall k | OccursAt(s, q, k) ensures Includes(s, q) {
      if k == 0 {
        assert s[..|q|] == s[k..k + |q|];
      } else {
        assert s[1..][k - 1..k - 1 + |q|] == s[k..k + |q|];
        assert OccursAt(s[1..], q, k - 1);
      }
    }
  }

  /** A query holding a character the text lacks never occurs in it. */
  lemma MissingCharNotIncluded(s: string, q: string, j: int)
    requires 0 <= j < |q|
    requires forall i :: 0 <= i < |s| ==> s[i] != q[j]
    ensures !Includes(s, q)
  {
    forall k | 0 <= k <= |s| - |q| ensures !OccursAt(s, q, k) {
      assert s[k..k + |q|][j] == s[k + j];
    }
    IncludesAt(s, q);
  }

  /** Every text includes itself. */
  lemma IncludesSelf(s: string)
    ensures Includes(s, s)
  {
    assert StartsWith(s, s);
  }

  /** A query longer than the text never occurs in it. */
  lemma LongerNeverIncluded(s: string, q: string)
    requires |q| > |s|
    ensures !Includes(s, q)
  {
    IncludesAt(s, q);
  }

  /** The characters `String.prototype.trim` removes: WhiteSpace (tab, vertical
      tab, form feed, space, no-break space, byte-order mark and the Unicode Zs
      category) and LineTerminator (LF, CR, U+2028, U+2029). */
  predicate IsJsWhitespace(c: char)
  {
    || c == '\t' || c == '\n' || c == '\r' || c == ' '
    || c == '\U{000B}' || c == '\U{000C}'
    || c == '\U{00A0}' || c == '\U{1680}'
    || ('\U{2000}' <= c <= '\U{200A}')
    || c == '\U{2028}' || c == '\U{2029}' || c == '\U{202F}' || c == '\U{205F}'
    || c == '\U{3000}' || c == '\U{FEFF}'
  }

  /** `s.trim() === ""`. */
  predicate IsBlank(s: string)
  {
    forall i :: 0 <= i < |s| ==> IsJsWhitespace(s[i])
  }

  /** `s.trimStart()`. */
  function TrimStart(s: string): string
  {
    if s != [] && IsJsWhitespace(s[0]) then TrimStart(s[1..]) else s
  }

  /** What `TrimStart` removes is a blank prefix, and what it keeps starts
      with something else. */
  lemma {:induction false} TrimStartShape(s: string)
    ensures var r := TrimStart(s);
            |r| <= |s| && r == s[|s| - |r|..] && (r == [] || !IsJsWhitespace(r[0])) && IsBlank(s[..|s| - |r|])
  {
    if s != [] && IsJsWhitespace(s[0]) {
      var r := TrimStart(s[1..]);
      TrimStartShape(s[1..]);
      assert s[..|s| - |r|] == [s[0]] + s[1..][..|s[1..]| - |r|];
    }
  }

  /** `s.trimEnd()`. */
  function TrimEnd(s: string): string
  {
    if s != [] && IsJsWhitespace(s[|s| - 1]) then TrimEnd(s[..|s| - 1]) else s
  }

  /** What `TrimEnd` removes is a blank suffix, and what it keeps ends with
      something else. */
  lemma {:induction false} TrimEndShape(s: string)
    ensures var r := TrimEnd(s);
            |r| <= |s| && r == s[..|r|] && (r == [] || !IsJsWhitespace(r[|r| - 1])) && IsBlank(s[|r|..])
  {
    if s != [] && IsJsWhitespace(s[|s| - 1]) {
      var r := TrimEnd(s[..|s| - 1]);
      TrimEndShape(s[..|s| - 1]);
      assert s[|r|..] == s[..|s| - 1][|r|..] + [s[|s| - 1]];
    }
  }

  /** `s.trim()`. */
  function Trim(s: string): (r: string)
  {
    TrimEnd(TrimStart(s))
  }

  /** `Trim` empties exactly the blank strings. */
  lemma TrimEmptyIffBlank(s: string)
    ensures Trim(s) == "" <==> IsBlank(s)
  {
    var t := TrimStart(s);
    TrimStartShape(s);
    if IsBlank(s) {
      TrimStartOfBlank(s);
    } else {
      var i :| 0 <= i < |s| && !IsJsWhitespace(s[i]);
      var j := i - (|s| - |t|);
      assert 0 <= j;
      assert t[j] == s[i];
      TrimEndKeepsNonBlank(t, j);
    }
  }

  lemma {:induction false} TrimStartOfBlank(s: string)
    requires IsBlank(s)
    ensures TrimStart(s) == ""
  {
    if s != [] {
      TrimStartOfBlank(s[1..]);
    }
  }

  lemma {:induction false} TrimEndKeepsNonBlank(t: string, j: int)
    requires 0 <= j < |t| && !IsJsWhitespace(t[j])
    ensures TrimEnd(t) != ""
  {
    if IsJsWhitespace(t[|t| - 1]) {
      TrimEndKeepsNonBlank(t[..|t| - 1], j);
    }
  }

  /** ASCII letters change case; every other character is left as it is. */
  function LowerChar(c: char): char
  {
    if 'A' <= c <= 'Z' then (c as int + 32) as char else c
  }

  function UpperChar(c: char): char
  {
    if 'a' <= c <= 'z' then (c as int - 32) as char else c
  }

  /** `s.toLowerCase()`, on the ASCII letters. */
  function ToLower(s: string): (r: string)
    ensures |r| == |s|
    ensures forall i :: 0 <= i < |s| ==> r[i] == LowerChar(s[i])
  {
    seq(|s|, i requires 0 <= i < |s| => LowerChar(s[i]))
  }

  /** `s.toUpperCase()`, on the ASCII letters. */
  function ToUpper(s: string): (r: string)
    ensures |r| == |s|
    ensures forall i :: 0 <= i < |s| ==> r[i] == UpperChar(s[i])
  {
    seq(|s|, i requires 0 <= i < |s| => UpperChar(s[i]))
  }

  /** Lower-casing twice is lower-casing once. */
  lemma ToLowerIdempotent(s: string)
    ensures ToLower(ToLower(s)) == ToLower(s)
  {
  }

  /** Changing case never turns a non-blank string blank, nor the reverse. */
  lemma CaseKeepsBlankness(s: string)
    ensures IsBlank(ToLower(s)) <==> IsBlank(s)
    ensures IsBlank(ToUpper(s)) <==> IsBlank(s)
  {
    assert forall c :: IsJsWhitespace(LowerChar(c)) <==> IsJsWhitespace(c);
    assert forall c :: IsJsWhitespace(UpperChar(c)) <==> IsJsWhitespace(c);
  }

  /** An upper-cased string has no lower-case ASCII letter left. */
  lemma ToUpperHasNoLowerAscii(s: string)
    ensures forall i :: 0 <= i < |s| ==> !('a' <= ToUpper(s)[i] <= 'z')
  {
  }

  /** The number of UTF-16 code units of `s` (JavaScript's `s.length`): a
      character outside the Basic Multilingual Plane takes two. */
  function JsLength(s: string): (n: nat)
  {
    if s == [] then 0 else (if s[0] as int > 0xFFFF then 2 else 1) + JsLength(s[1..])
  }

  /** `s.length` is at least the number of characters and at most twice it. */
  lemma {:induction false} JsLengthBounds(s: string)
    ensures |s| <= JsLength(s) <= 2 * |s|
    ensures JsLength(s) == 0 <==> s == []
  {
    if s != [] {
      JsLengthBounds(s[1..]);
    }
  }

  /** Within the Basic Multilingual Plane `s.length` counts characters. */
  lemma {:induction false} JsLengthOfBmp(s: string)
    requires forall i :: 0 <= i < |s| ==> s[i] as int <= 0xFFFF
    ensures JsLength(s) == |s|
  {
    if s != [] {
      assert forall i :: 0 <= i < |s[1..]| ==> s[1..][i] == s[i + 1];
      JsLengthOfBmp(s[1..]);
    }
  }

  // ---------------------------------------------------------------------------
  // Numbers as text

  function DigitChar(d: nat): (c: char)
    requires d < 10
    ensures IsDigit(c) && c as int - '0' as int == d
  {
    ('0' as int + d) as char
  }

  /** The decimal text of a natural number. */
  function NatToString(n: nat): (s: string)
    ensures |s| >= 1
    ensures n >= 10 ==> |s| >= 2
    ensures forall i :: 0 <= i < |s| ==> '0' <= s[i] <= '9'
  {
    if n < 10 then [DigitChar(n)] else NatToString(n / 10) + [DigitChar(n % 10)]
  }

  /** `n.toString()` for an integer: digits, after a minus sign for a negative number. */
  function IntToString(n: int): (s: string)
    ensures |s| >= 1 && (s[0] == '-' <==> n < 0)
    ensures forall i :: 0 < i < |s| ==> '0' <= s[i] <= '9'
  {
    if n < 0 then "-" + NatToString(-n) else NatToString(n)
  }

  /** Different numbers have different decimal texts. */
  lemma {:induction false} NatToStringInjective(a: nat, b: nat)
    requires NatToString(a) == NatToString(b)
    ensures a == b
    decreases a
  {
    if a < 10 && b < 10 {
      assert DigitChar(a) == NatToString(a)[0] == NatToString(b)[0] == DigitChar(b);
    } else if a >= 10 && b >= 10 {
      var sa, sb := NatToString(a), NatToString(b);
      assert sa[..|sa| - 1] == NatToString(a / 10);
      assert sb[..|sb| - 1] == NatToString(b / 10);
      NatToStringInjective(a / 10, b / 10);
      assert DigitChar(a % 10) == sa[|sa| - 1] == sb[|sb| - 1] == DigitChar(b % 10);
    }
  }

  lemma IntToStringInjective(a: int, b: int)
    requires IntToString(a) == IntToString(b)
    ensures a == b
  {
    var sa, sb := IntToString(a), IntToString(b);
    assert (sa[0] == '-') == (a < 0) && (sb[0] == '-') == (b < 0);
    if a < 0 && b < 0 {
      assert sa[1..] == NatToString(-a) && sb[1..] == NatToString(-b);
      NatToStringInjective(-a, -b);
    } else if a >= 0 && b >= 0 {
      NatToStringInjective(a, b);
    }
  }

  predicate IsDigit(c: char)
  {
    '0' <= c <= '9'
  }

  /** The value of a string of decimal digits. */
  function DigitsValue(s: string): (n: nat)
    requires forall i :: 0 <= i < |s| ==> IsDigit(s[i])
  {
    if s == [] then 0
    else
      assert IsDigit(s[|s| - 1]);
      DigitsValue(s[..|s| - 1]) * 10 + (s[|s| - 1] as int - '0' as int)
  }

  /** The decimal text of `n` reads back as `n`. */
  lemma {:induction false} DigitsValueOfNatToString(n: nat)
    ensures DigitsValue(NatToString(n)) == n
  {
    if n >= 10 {
      var s := NatToString(n);
      assert s[..|s| - 1] == NatToString(n / 10);
      DigitsValueOfNatToString(n / 10);
    }
  }

  /** The length of the longest run of digits at the front of `s`. */
  function DigitPrefixLength(s: string): (k: nat)
    ensures k <= |s|
    ensures forall i :: 0 <= i < k ==> IsDigit(s[i])
    ensures k == |s| || !IsDigit(s[k])
  {
    if s != [] && IsDigit(s[0]) then 1 + DigitPrefixLength(s[1..]) else 0
  }

  /** `t` without its leading sign, if it has one. */
  function Unsigned(t: string): string
  {
    if t != [] && (t[0] == '-' || t[0] == '+') then t[1..] else t
  }

  /** `Number.parseInt(s)` in base 10: leading white space is skipped, an
      optional sign is read, then the longest run of digits; `None` is NaN (no
      digit at all). */
  function ParseInt(s: string): (r: Option<int>)
    ensures r.Some? <==> (var u := Unsigned(TrimStart(s)); u != [] && IsDigit(u[0]))
  {
    var t := TrimStart(s);
    match LeadingDigitsValue(Unsigned(t))
    case None => None
    case Some(v) => Some(if t != [] && t[0] == '-' then -(v as int) else v as int)
  }

  /** The value of the run of digits at the front of `u`, if there is one. */
  function LeadingDigitsValue(u: string): (r: Option<nat>)
    ensures r.Some? <==> u != [] && IsDigit(u[0])
  {
    var k := DigitPrefixLength(u);
    if k == 0 then None
    else
      assert forall i :: 0 <= i < k ==> IsDigit(u[..k][i]);
      Some(DigitsValue(u[..k]))
  }

  /** `Number(s)` for text: after trimming, "" is 0 and an optionally signed run
      of decimal digits is its value; `None` stands for NaN (and for the numeric
      forms not modelled here: fractions, exponents, hexadecimal, Infinity). */
  function NumberValue(s: string): (r: Option<int>)
  {
    var t := Trim(s);
    var negative := t != [] && t[0] == '-';
    var u := Unsigned(t);
    if t == [] then Some(0)
    else if u == [] || DigitPrefixLength(u) != |u| then None
    else
      var v: int := DigitsValue(u);
      Some(if negative then -v else v)
  }

  /** Text that starts with anything but white space, a sign or a digit is
      not a number. */
  lemma NonNumericStartIsNaN(s: string)
    requires |s| > 0 && !IsJsWhitespace(s[0]) && !IsDigit(s[0]) && s[0] != '-' && s[0] != '+'
    ensures NumberValue(s) == None
  {
    assert TrimStart(s) == s;
    var t := Trim(s);
    TrimEndShape(s);
    assert IsBlank(s[|t|..]);
    assert |t| > 0;
    assert t[0] == s[0];
  }

  /** `Number(String(n))` gives `n` back for every natural number. */
  lemma NumberValueOfNatToString(n: nat)
    ensures NumberValue(NatToString(n)) == Some(n)
  {
    var s := NatToString(n);
    assert !IsJsWhitespace(s[0]) && !IsJsWhitespace(s[|s| - 1]);
    assert TrimStart(s) == s;
    assert TrimEnd(s) == s;
    assert Trim(s) == s;
    assert s[0] != '-' && s[0] != '+';
    assert DigitPrefixLength(s) == |s|;
    DigitsValueOfNatToString(n);
  }

  /** `Number(n.toString())` gives back any integer, negative ones included. */
  lemma NumberValueOfIntToString(n: int)
    ensures NumberValue(IntToString(n)) == Some(n)
  {
    if n >= 0 {
      NumberValueOfNatToString(n);
    } else {
      var m: nat := -n;
      var s := IntToString(n);
      var d := NatToString(m);
      assert s == "-" + d;
      assert !IsJsWhitespace(s[0]) && !IsJsWhitespace(s[|s| - 1]);
      assert TrimStart(s) == s;
      assert TrimEnd(s) == s;
      assert Trim(s) == s;
      assert Unsigned(s) == d;
      assert DigitPrefixLength(d) == |d|;
      DigitsValueOfNatToString(m);
    }
  }

  /** The digits of a natural number read back as that number. */
  lemma LeadingDigitsOfNatToString(m: nat)
    ensures LeadingDigitsValue(NatToString(m)) == Some(m)
  {
    var d := NatToString(m);
    assert DigitPrefixLength(d) == |d|;
    assert d[..|d|] == d;
    DigitsValueOfNatToString(m);
  }

  /** `parseInt(String(n))` gives `n` back for every integer. */
  lemma ParseIntOfIntToString(n: int)
    ensures ParseInt(IntToString(n)) == Some(n)
  {
    var m: nat := if n < 0 then -n else n;
    var s := IntToString(n);
    assert !IsJsWhitespace(s[0]);
    assert TrimStart(s) == s;
    assert Unsigned(s) == NatToString(m);
    LeadingDigitsOfNatToString(m);
  }

  // ---------------------------------------------------------------------------
  // Array.prototype.filter and what it keeps

  /** `s.filter(p)`. */
  function Filter<T>(s: seq<T>, p: T -> bool): (r: seq<T>)
    ensures |r| <= |s|
  {
    if s == [] then [] else (if p(s[0]) then [s[0]] else []) + Filter(s[1..], p)
  }

  /** `a` is `b` with some elements left out, the rest in their order. */
  predicate IsSubsequence<T(==)>(a: seq<T>, b: seq<T>)
    decreases |b|
  {
    a == [] || (b != [] && (if a[0] == b[0] then IsSubsequence(a[1..], b[1..]) else IsSubsequence(a, b[1..])))
  }

  /** An element is kept exactly when it is in the input and satisfies `p`. */
  lemma {:induction false} FilterMembership<T>(s: seq<T>, p: T -> bool, x: T)
    ensures x in Filter(s, p) <==> x in s && p(x)
  {
    if s != [] {
      FilterMembership(s[1..], p, x);
      assert s == [s[0]] + s[1..];
    }
  }

  /** Each value is kept as many times as it occurs, or not at all. */
  lemma {:induction false} FilterCount<T>(s: seq<T>, p: T -> bool, x: T)
    ensures multiset(Filter(s, p))[x] == if p(x) then multiset(s)[x] else 0
  {
    if s != [] {
      FilterCount(s[1..], p, x);
      var head := if p(s[0]) then [s[0]] else [];
      assert multiset(Filter(s, p)) == multiset(head) + multiset(Filter(s[1..], p));
      assert s == [s[0]] + s[1..];
      assert multiset(s) == multiset([s[0]]) + multiset(s[1..]);
    }
  }

  /** The result keeps the input's order. */
  lemma {:induction false} FilterIsSubsequence<T>(s: seq<T>, p: T -> bool)
    ensures IsSubsequence(Filter(s, p), s)
  {
    if s != [] {
      FilterIsSubsequence(s[1..], p);
      var r := Filter(s, p);
      if p(s[0]) {
        assert r[0] == s[0] && r[1..] == Filter(s[1..], p);
      } else {
        assert r == Filter(s[1..], p);
        if r != [] && r[0] == s[0] {
          FilterMembership(s[1..], p, s[0]);
          assert false;
        }
      }
    }
  }

  /** Every sequence is a subsequence of itself. */
  lemma {:induction false} SubsequenceReflexive<T>(s: seq<T>)
    ensures IsSubsequence(s, s)
  {
    if s != [] {
      SubsequenceReflexive(s[1..]);
    }
  }

  /** Nothing is dropped when every element satisfies `p`. */
  lemma {:induction false} FilterKeepsAll<T>(s: seq<T>, p: T -> bool)
    requires forall i :: 0 <= i < |s| ==> p(s[i])
    ensures Filter(s, p) == s
  {
    if s != [] {
      FilterKeepsAll(s[1..], p);
    }
  }

  /** Filtering a concatenation filters each part. */
  lemma {:induction false} FilterConcat<T>(a: seq<T>, b: seq<T>, p: T -> bool)
    ensures Filter(a + b, p) == Filter(a, p) + Filter(b, p)
  {
    if a != [] {
      assert (a + b)[1..] == a[1..] + b;
      FilterConcat(a[1..], b, p);
    } else {
      assert a + b == b;
    }
  }

  /** Two predicates that agree on the input keep the same elements. */
  lemma {:induction false} FilterCongruent<T>(s: seq<T>, p: T -> bool, q: T -> bool)
    requires forall i :: 0 <= i < |s| ==> p(s[i]) == q(s[i])
    ensures Filter(s, p) == Filter(s, q)
  {
    if s != [] {
      FilterCongruent(s[1..], p, q);
    }
  }

  /** The first element satisfying `p` (`s.find(p)`), with its absence as `None`. */
  function Find<T>(s: seq<T>, p: T -> bool): (r: Option<T>)
    ensures r.Some? ==> r.value in s && p(r.value)
    ensures r.None? ==> forall i :: 0 <= i < |s| ==> !p(s[i])
  {
    if s == [] then None else if p(s[0]) then Some(s[0]) else Find(s[1..], p)
  }

  /** `Find` returns the FIRST match: every element before it fails `p`. */
  lemma {:induction false} FindIsFirst<T>(s: seq<T>, p: T -> bool)
    requires Find(s, p).Some?
    ensures exists k :: 0 <= k < |s| && s[k] == Find(s, p).value &&
                        forall j :: 0 <= j < k ==> !p(s[j])
  {
    if !p(s[0]) {
      FindIsFirst(s[1..], p);
      var k :| 0 <= k < |s[1..]| && s[1..][k] == Find(s, p).value &&
               forall j :: 0 <= j < k ==> !p(s[1..][j]);
      assert s[k + 1] == Find(s, p).value;
      assert forall j :: 0 <= j < k + 1 ==> !p(s[j]) by {
        forall j | 0 <= j < k + 1 ensures !p(s[j]) {
          if j > 0 { assert s[j] == s[1..][j - 1]; }
        }
      }
    } else {
      assert s[0] == Find(s, p).value;
    }
  }
}
