/** The part of the JavaScript runtime that the page scripts rely on: values as
    `JSON.parse` yields them, truthiness and `??`, `String(...)`, ASCII case
    mapping, `trim`, `parseInt` on decimal text, `split` on one character and
    `Array.prototype.filter`. */
module Js {

  datatype Option<+T> = None | Some(value: T) {
    function GetOr(default: T): T {
      match this
      case Some(v) => v
      case None => default
    }
  }

  /** A JavaScript value as it comes out of `JSON.parse`, plus `undefined` for a
      missing property. Numbers are integers in this model. */
  datatype Val =
    | Undefined
    | Null
    | Bool(b: bool)
    | Num(n: int)
    | Str(s: string)
    | Arr(items: seq<Val>)
    | Obj(fields: map<string, Val>)

  /** `v.key` for a value that is not null or undefined (on those, JavaScript
      throws; callers that can meet them check `IsNullish` first). */
  function Get(v: Val, key: string): Val {
    if v.Obj? && key in v.fields then v.fields[key] else Undefined
  }

  predicate IsNullish(v: Val) {
    v.Undefined? || v.Null?
  }

  /** `a ?? b` */
  function Coalesce(a: Val, b: Val): Val {
    if IsNullish(a) then b else a
  }

  /** JavaScript truthiness (`if (v)`, `!v`, `v || w`). */
  predicate Truthy(v: Val) {
    match v
    case Undefined => false
    case Null => false
    case Bool(b) => b
    case Num(n) => n != 0
    case Str(s) => s != ""
    case Arr(_) => true
    case Obj(_) => true
  }

  /** `String(v)`: what `localStorage.setItem` and `textContent` make of a value. */
  function StringOf(v: Val): string {
    match v
    case Undefined => "undefined"
    case Null => "null"
    case Bool(b) => if b then "true" else "false"
    case Num(n) => IntToString(n)
    case Str(s) => s
    case Arr(items) => JoinElements(items)
    case Obj(_) => "[object Object]"
  }

  /** `Array.prototype.join(",")`, where null and undefined elements print as "". */
  function JoinElements(items: seq<Val>): string
    decreases items
  {
    if items == [] then ""
    else
      var head := if IsNullish(items[0]) then "" else StringOf(items[0]);
      if |items| == 1 then head else head + "," + JoinElements(items[1..])
  }

  // ---------------------------------------------------------------------------
  // Decimal integers: `String(n)` and `parseInt(s)`

  predicate IsDigit(c: char) {
    '0' <= c <= '9'
  }

  function DigitChar(d: nat): (c: char)
    requires d < 10
    ensures IsDigit(c)
  {
    "0123456789"[d]
  }

  function DigitValue(c: char): nat
    requires IsDigit(c)
  {
    c as int - '0' as int
  }

  function NatToString(n: nat): (s: string)
    decreases n
  {
    if n < 10 then [DigitChar(n)] else NatToString(n / 10) + [DigitChar(n % 10)]
  }

  function IntToString(n: int): string {
    if n < 0 then "-" + NatToString(-n) else NatToString(n)
  }

  /** The value of a string of decimal digits, most significant first. */
  function DigitsValue(ds: string): nat
    requires forall i :: 0 <= i < |ds| ==> IsDigit(ds[i])
  {
    if ds == [] then 0 else DigitsValue(ds[..|ds| - 1]) * 10 + DigitValue(ds[|ds| - 1])
  }

  /** Number of leading decimal digits of `s`. */
  function DigitRun(s: string): (k: nat)
    ensures k <= |s|
    ensures forall i :: 0 <= i < k ==> IsDigit(s[i])
    ensures k < |s| ==> !IsDigit(s[k])
  {
    if s == [] || !IsDigit(s[0]) then 0 else 1 + DigitRun(s[1..])
  }

  /** `parseInt(s, 10)`: leading white space, an optional sign, then the longest
      run of digits; `None` stands for NaN. The scripts also call `parseInt(s)`
      without a radix, which agrees with this except on a "0x" prefix. */
  function ParseInt(s: string): Option<int> {
    var t := TrimStart(s);
    var negative := |t| > 0 && t[0] == '-';
    var body := if |t| > 0 && (t[0] == '-' || t[0] == '+') then t[1..] else t;
    var k := DigitRun(body);
    if k == 0 then None
    else
      var m: int := DigitsValue(body[..k]);
      Some(if negative then -m else m)
  }

  lemma {:induction false} NatToStringDigits(n: nat)
    ensures |NatToString(n)| > 0
    ensures forall i :: 0 <= i < |NatToString(n)| ==> IsDigit(NatToString(n)[i])
    ensures DigitsValue(NatToString(n)) == n
    decreases n
  {
    if n >= 10 {
      NatToStringDigits(n / 10);
      DigitCharValue(n % 10);
      DigitsValueSnoc(NatToString(n / 10), DigitChar(n % 10));
    } else {
      DigitCharValue(n);
      DigitsValueSnoc([], DigitChar(n));
      assert [] + [DigitChar(n)] == NatToString(n);
    }
  }

  lemma DigitCharValue(d: nat)
    requires d < 10
    ensures DigitValue(DigitChar(d)) == d
  {
  }

  /** Appending a digit multiplies the value by ten and adds the digit. */
  lemma DigitsValueSnoc(ds: string, c: char)
    requires forall i :: 0 <= i < |ds| ==> IsDigit(ds[i])
    requires IsDigit(c)
    ensures forall i :: 0 <= i < |ds + [c]| ==> IsDigit((ds + [c])[i])
    ensures DigitsValue(ds + [c]) == DigitsValue(ds) * 10 + DigitValue(c)
  {
    assert (ds + [c])[..|ds|] == ds;
  }

  /** `parseInt(String(n), 10) == n`: the two conversions are inverse. */
  lemma ParseIntOfIntToString(n: int)
    ensures ParseInt(IntToString(n)) == Some(n)
  {
    var m: nat := if n < 0 then -n else n;
    NatToStringDigits(m);
    var ds := NatToString(m);
    var s := IntToString(n);
    DigitNotSpace(s[0]);
    assert TrimStart(s) == s;
    var body := if n < 0 then s[1..] else s;
    assert body == ds;
    assert DigitRun(body) == |ds| by {
      DigitRunAll(ds);
    }
    assert body[..|ds|] == ds;
  }

  /** `parseInt` of a single digit is that digit's value. */
  lemma ParseIntOneDigit(c: char)
    requires IsDigit(c)
    ensures ParseInt([c]) == Some(DigitValue(c))
  {
    TrimStartOfDigit(c);
    DigitRunOfDigit(c);
    DigitsValueOfDigit(c);
    assert [c][..1] == [c];
  }

  /** Digits and signs are not white space. */
  lemma DigitNotSpace(c: char)
    requires IsDigit(c) || c == '-' || c == '+'
    ensures !IsSpace(c)
  {
  }

  lemma DigitsValueOfDigit(c: char)
    requires IsDigit(c)
    ensures DigitsValue([c]) == DigitValue(c)
  {
    assert [c][..0] == [];
  }

  lemma TrimStartOfDigit(c: char)
    requires IsDigit(c)
    ensures TrimStart([c]) == [c]
  {
    DigitNotSpace(c);
  }

  lemma DigitRunOfDigit(c: char)
    requires IsDigit(c)
    ensures DigitRun([c]) == 1
  {
    assert [c][1..] == [];
  }

  lemma {:induction false} DigitRunAll(ds: string)
    requires forall i :: 0 <= i < |ds| ==> IsDigit(ds[i])
    ensures DigitRun(ds) == |ds|
  {
    if ds != [] {
      DigitRunAll(ds[1..]);
    }
  }

  /** Distinct integers print differently. */
  lemma IntToStringInjective(a: int, b: int)
    requires IntToString(a) == IntToString(b)
    ensures a == b
  {
    ParseIntOfIntToString(a);
    ParseIntOfIntToString(b);
  }

  /** `Number(s)` for the strings the model reads as numbers: white space
      around an optionally signed run of decimal digits, or nothing at all (0).
      `None` stands for NaN. */
  function NumberOfString(s: string): Option<int> {
    var t := Trim(s);
    if t == "" then Some(0)
    else
      var body := if t[0] == '-' || t[0] == '+' then t[1..] else t;
      if body != "" && DigitRun(body) == |body| then
        var m: int := DigitsValue(body);
        Some(if t[0] == '-' then -m else m)
      else None
  }

  /** `v < x` for a number `x`: JavaScript converts `v` to a number first, and
      every comparison with NaN is false. */
  predicate LessThanNumber(v: Val, x: int) {
    match v
    case Undefined => false
    case Null => 0 < x
    case Bool(b) => (if b then 1 else 0) < x
    case Num(n) => n < x
    case Str(s) => NumberOfString(s).Some? && NumberOfString(s).value < x
    case Arr(_) => NumberOfString(StringOf(v)).Some? && NumberOfString(StringOf(v)).value < x
    case Obj(_) => false
  }

  // ---------------------------------------------------------------------------
  // `trim`

  /** The white space and line terminators that `String.prototype.trim` removes. */
  predicate IsSpace(c: char) {
    if c < '\U{00A0}' then c == ' ' || ('\t' <= c <= '\r')
    else
      c == '\U{00A0}' || c == '\U{FEFF}' || c == '\U{1680}' || ('\U{2000}' <= c <= '\U{200A}')
      || c == '\U{2028}' || c == '\U{2029}' || c == '\U{202F}' || c == '\U{205F}' || c == '\U{3000}'
  }

  /** `s.trimStart()`; `TrimStartFacts` states what it removes. */
  function TrimStart(s: string): string {
    if s != [] && IsSpace(s[0]) then TrimStart(s[1..]) else s
  }

  /** `s.trimEnd()`; `TrimEndFacts` states what it removes. */
  function TrimEnd(s: string): string {
    if s != [] && IsSpace(s[|s| - 1]) then TrimEnd(s[..|s| - 1]) else s
  }

  /** `trimStart` drops exactly the leading white space. */
  lemma {:induction false} TrimStartFacts(s: string)
    ensures var r := TrimStart(s);
      && |r| <= |s| && r == s[|s| - |r|..]
      && (forall i :: 0 <= i < |s| - |r| ==> IsSpace(s[i]))
      && (r == [] || !IsSpace(r[0]))
    decreases |s|
  {
    if s != [] && IsSpace(s[0]) {
      TrimStartFacts(s[1..]);
      var r := TrimStart(s);
      assert s[1..][|s| - 1 - |r|..] == s[|s| - |r|..];
      forall i | 1 <= i < |s| - |r|
        ensures IsSpace(s[i])
      {
        assert s[i] == s[1..][i - 1];
      }
    }
  }

  /** `trimEnd` drops exactly the trailing white space. */
  lemma {:induction false} TrimEndFacts(s: string)
    ensures var r := TrimEnd(s);
      && |r| <= |s| && r == s[..|r|]
      && (forall i :: |r| <= i < |s| ==> IsSpace(s[i]))
      && (r == [] || !IsSpace(r[|r| - 1]))
    decreases |s|
  {
    if s != [] && IsSpace(s[|s| - 1]) {
      TrimEndFacts(s[..|s| - 1]);
      var r := TrimEnd(s);
      assert s[..|s| - 1][..|r|] == s[..|r|];
      forall i | |r| <= i < |s| - 1
        ensures IsSpace(s[i])
      {
        assert s[i] == s[..|s| - 1][i];
      }
    }
  }

  /** White space around a string whose ends are not white space is exactly
      what `trim` removes. */
  lemma TrimSurrounded(before: string, core: string, after: string)
    requires forall k :: 0 <= k < |before| ==> IsSpace(before[k])
    requires forall k :: 0 <= k < |after| ==> IsSpace(after[k])
    requires core == [] || (!IsSpace(core[0]) && !IsSpace(core[|core| - 1]))
    ensures core != [] ==> Trim(before + core + after) == core
  {
    if core != [] {
      TrimStartSpaces(before, core + after);
      assert before + core + after == before + (core + after);
      TrimEndSpaces(core, after);
    }
  }

  lemma {:induction false} TrimStartSpaces(spaces: string, rest: string)
    requires forall k :: 0 <= k < |spaces| ==> IsSpace(spaces[k])
    requires rest != [] && !IsSpace(rest[0])
    ensures TrimStart(spaces + rest) == rest
  {
    if spaces != [] {
      assert (spaces + rest)[1..] == spaces[1..] + rest;
      TrimStartSpaces(spaces[1..], rest);
    } else {
      assert spaces + rest == rest;
    }
  }

  lemma {:induction false} TrimEndSpaces(rest: string, spaces: string)
    requires forall k :: 0 <= k < |spaces| ==> IsSpace(spaces[k])
    requires rest != [] && !IsSpace(rest[|rest| - 1])
    ensures TrimEnd(rest + spaces) == rest
  {
    if spaces != [] {
      assert (rest + spaces)[..|rest + spaces| - 1] == rest + spaces[..|spaces| - 1];
      TrimEndSpaces(rest, spaces[..|spaces| - 1]);
    } else {
      assert rest + spaces == rest;
    }
  }

  /** `s.trim()`: the middle of `s` between white space on both sides;
      `TrimIsSlice` states what that means. */
  function Trim(s: string): string {
    TrimEnd(TrimStart(s))
  }

  /** `r` is `s[i..j]` with only white space outside it. */
  predicate TrimmedAt(s: string, r: string, i: int, j: int) {
    0 <= i <= j <= |s| && r == s[i..j]
    && (forall k :: 0 <= k < i ==> IsSpace(s[k]))
    && (forall k :: j <= k < |s| ==> IsSpace(s[k]))
  }

  /** The trimmed text is a slice of `s` with only white space outside it,
      and neither of its ends is white space. */
  lemma TrimIsSlice(s: string)
    ensures exists i, j :: TrimmedAt(s, Trim(s), i, j)
    ensures Trim(s) == [] || (!IsSpace(Trim(s)[0]) && !IsSpace(Trim(s)[|Trim(s)| - 1]))
  {
    var t := TrimStart(s);
    var r := TrimEnd(t);
    TrimStartFacts(s);
    TrimEndFacts(t);
    var i := |s| - |t|;
    assert t == s[i..];
    assert r == t[..|r|];
    forall k | i + |r| <= k < |s|
      ensures IsSpace(s[k])
    {
      assert s[k] == t[k - i];
    }
    assert Trim(s) == r && TrimmedAt(s, r, i, i + |r|);
    if r != [] {
      assert r[0] == t[0];
    }
  }

  /** Trimming twice is trimming once. */
  lemma TrimIdempotent(s: string)
    ensures Trim(Trim(s)) == Trim(s)
  {
    TrimIsSlice(s);
    var t := Trim(s);
    if t != [] {
      TrimSurrounded([], t, []);
      assert [] + t + [] == t;
    }
  }


  // ---------------------------------------------------------------------------
  // ASCII case mapping

  function Lower(c: char): char {
    if 'A' <= c <= 'Z' then (c as int + 32) as char else c
  }

  function Upper(c: char): char {
    if 'a' <= c <= 'z' then (c as int - 32) as char else c
  }

  /** `s.toLowerCase()` on ASCII letters. */
  function ToLower(s: string): (r: string)
    ensures |r| == |s|
    ensures forall i :: 0 <= i < |s| ==> r[i] == Lower(s[i])
  {
    seq(|s|, i requires 0 <= i < |s| => Lower(s[i]))
  }

  /** Lower-casing twice is lower-casing once. */
  lemma ToLowerIdempotent(s: string)
    ensures ToLower(ToLower(s)) == ToLower(s)
  {
    assert forall i :: 0 <= i < |s| ==> Lower(Lower(s[i])) == Lower(s[i]);
  }

  /** `s.toUpperCase()` on ASCII letters. */
  function ToUpper(s: string): (r: string)
    ensures |r| == |s|
    ensures forall i :: 0 <= i < |s| ==> r[i] == Upper(s[i])
  {
    seq(|s|, i requires 0 <= i < |s| => Upper(s[i]))
  }

  // ---------------------------------------------------------------------------
  // Strings as sequences

  predicate EndsWith(s: string, suffix: string) {
    |suffix| <= |s| && s[|s| - |suffix|..] == suffix
  }

  /** `s.includes(sub)` */
  predicate Includes(s: string, sub: string) {
    exists i {:trigger s[i..]} :: 0 <= i <= |s| - |sub| && s[i..][..|sub|] == sub
  }

  function Repeat(c: char, n: nat): (r: string)
    ensures |r| == n && forall i :: 0 <= i < n ==> r[i] == c
  {
    seq(n, _ => c)
  }

  /** `s.replaceAll(c, rep)` for a one-character pattern. */
  function ReplaceAll(s: string, c: char, rep: string): string {
    if s == [] then [] else (if s[0] == c then rep else [s[0]]) + ReplaceAll(s[1..], c, rep)
  }

  /** Replacing one character by one character works position by position. */
  lemma {:induction false} ReplaceCharAt(s: string, c: char, d: char)
    ensures |ReplaceAll(s, c, [d])| == |s|
    ensures forall i :: 0 <= i < |s| ==> ReplaceAll(s, c, [d])[i] == (if s[i] == c then d else s[i])
  {
    if s != [] {
      ReplaceCharAt(s[1..], c, d);
    }
  }

  /** `s.split(sep)` for a one-character separator. */
  function Split(s: string, sep: char): (parts: seq<string>)
    ensures |parts| >= 1
  {
    if s == [] then [""]
    else
      var rest := Split(s[1..], sep);
      if s[0] == sep then [""] + rest else [[s[0]] + rest[0]] + rest[1..]
  }

  /** `parts.join(sep)` */
  function Join(parts: seq<string>, sep: char): string
    requires |parts| >= 1
  {
    if |parts| == 1 then parts[0] else parts[0] + [sep] + Join(parts[1..], sep)
  }

  /** Splitting loses nothing: joining the parts back gives the original
      string. */
  lemma {:induction false} SplitJoin(s: string, sep: char)
    ensures Join(Split(s, sep), sep) == s
  {
    if s != [] {
      SplitJoin(s[1..], sep);
      var rest := Split(s[1..], sep);
      if s[0] == sep {
        JoinCons("", rest, sep);
      } else {
        JoinHeadExtend(s[0], rest, sep);
      }
      assert s == [s[0]] + s[1..];
    }
  }

  lemma JoinCons(p: string, parts: seq<string>, sep: char)
    requires |parts| >= 1
    ensures Join([p] + parts, sep) == p + [sep] + Join(parts, sep)
  {
    assert ([p] + parts)[1..] == parts;
  }

  /** Putting a character in front of the first part puts it in front of the
      joined text. */
  lemma JoinHeadExtend(c: char, parts: seq<string>, sep: char)
    requires |parts| >= 1
    ensures Join([[c] + parts[0]] + parts[1..], sep) == [c] + Join(parts, sep)
  {
    if |parts| > 1 {
      JoinCons([c] + parts[0], parts[1..], sep);
      JoinCons(parts[0], parts[1..], sep);
      assert [parts[0]] + parts[1..] == parts;
    }
  }

  /** No part holds the separator. */
  lemma {:induction false} SplitPartsFree(s: string, sep: char)
    ensures forall k :: 0 <= k < |Split(s, sep)| ==> sep !in Split(s, sep)[k]
  {
    if s != [] {
      SplitPartsFree(s[1..], sep);
      var rest, parts := Split(s[1..], sep), Split(s, sep);
      forall k | 0 <= k < |parts| ensures sep !in parts[k] {
        if s[0] == sep {
          if k > 0 { assert parts[k] == rest[k - 1]; }
        } else if k > 0 {
          assert parts[k] == rest[k];
        } else {
          assert parts[0] == [s[0]] + rest[0];
        }
      }
    }
  }

  /** A string without the separator splits into itself alone. */
  lemma {:induction false} SplitWithoutSeparator(s: string, sep: char)
    requires sep !in s
    ensures Split(s, sep) == [s]
  {
    if s != [] {
      assert s[0] != sep;
      SplitWithoutSeparator(s[1..], sep);
      assert [s[0]] + s[1..] == s;
    }
  }

  /** Splitting `a + [sep] + b`, where `a` holds no separator, gives `a` first
      and then the parts of `b`. */
  lemma {:induction false} SplitAfterFirst(a: string, sep: char, b: string)
    requires sep !in a
    ensures Split(a + [sep] + b, sep) == [a] + Split(b, sep)
  {
    if a == [] {
      assert a + [sep] + b == [sep] + b;
      assert ([sep] + b)[1..] == b;
    } else {
      SplitAfterFirst(a[1..], sep, b);
      assert (a + [sep] + b)[1..] == a[1..] + [sep] + b;
      assert [a[0]] + a[1..] == a;
    }
  }

  /** The first part of `s.split(sep)` is `s` up to its first separator. */
  lemma {:induction false} SplitFirst(s: string, sep: char)
    ensures var p := Split(s, sep)[0];
      |p| <= |s| && p == s[..|p|] && sep !in p && (|p| < |s| ==> s[|p|] == sep)
  {
    if s != [] && s[0] != sep {
      SplitFirst(s[1..], sep);
    }
  }

  // ---------------------------------------------------------------------------
  // `Array.prototype.filter`

  function Filter<T>(s: seq<T>, p: T -> bool): (r: seq<T>)
    ensures |r| <= |s|
    ensures forall x :: x in r ==> x in s && p(x)
    ensures forall x :: x in s && p(x) ==> x in r
  {
    if s == [] then []
    else if p(s[0]) then [s[0]] + Filter(s[1..], p)
    else Filter(s[1..], p)
  }

  /** `xs.map(f)` where `f` may throw (`None`): the mapped list when no
      element throws. */
  function MapAll<A, B>(xs: seq<A>, f: A -> Option<B>): (r: Option<seq<B>>)
    ensures r.Some? ==> |r.value| == |xs|
    ensures r.Some? <==> forall i :: 0 <= i < |xs| ==> f(xs[i]).Some?
    ensures r.Some? ==> forall i :: 0 <= i < |xs| ==> r.value[i] == f(xs[i]).value
  {
    if xs == [] then Some([])
    else
      var rest := MapAll(xs[1..], f);
      if f(xs[0]).Some? && rest.Some? then
        var r := [f(xs[0]).value] + rest.value;
        assert forall i :: 1 <= i < |xs| ==> r[i] == rest.value[i - 1] && xs[i] == xs[1..][i - 1];
        Some(r)
      else
        None
  }

  /** A list is its part before `i`, the element at `i`, and its part after. */
  lemma SplitAt<T>(s: seq<T>, i: nat)
    requires i < |s|
    ensures s == s[..i] + [s[i]] + s[i + 1..]
  {
  }

  /** Replacing the element at `i` keeps the parts around it. */
  lemma UpdateAt<T>(s: seq<T>, i: nat, x: T)
    requires i < |s|
    ensures s[i := x] == s[..i] + [x] + s[i + 1..]
  {
  }

  /** `a` is `b` with some elements left out and the rest in their order. */
  predicate Subsequence<T(==)>(a: seq<T>, b: seq<T>)
    decreases |b|
  {
    a == [] || (b != [] && ((a[0] == b[0] && Subsequence(a[1..], b[1..])) || Subsequence(a, b[1..])))
  }

  lemma {:induction false} SubsequenceRefl<T>(s: seq<T>)
    ensures Subsequence(s, s)
  {
    if s != [] {
      SubsequenceRefl(s[1..]);
    }
  }

  lemma {:induction false} SubsequenceTransitive<T>(a: seq<T>, b: seq<T>, c: seq<T>)
    requires Subsequence(a, b) && Subsequence(b, c)
    ensures Subsequence(a, c)
    decreases |c|
  {
    if a != [] {
      if b[0] == c[0] && Subsequence(b[1..], c[1..]) {
        if a[0] == b[0] && Subsequence(a[1..], b[1..]) {
          SubsequenceTransitive(a[1..], b[1..], c[1..]);
        } else {
          SubsequenceTransitive(a, b[1..], c[1..]);
        }
      } else {
        SubsequenceTransitive(a, b, c[1..]);
      }
    }
  }

  lemma {:induction false} FilterIsSubsequence<T>(s: seq<T>, p: T -> bool)
    ensures Subsequence(Filter(s, p), s)
  {
    if s != [] {
      FilterIsSubsequence(s[1..], p);
    }
  }

  /** Filtering twice is filtering once by both conditions. */
  lemma {:induction false} FilterFilter<T>(s: seq<T>, p: T -> bool, q: T -> bool)
    ensures Filter(Filter(s, p), q) == Filter(s, x => p(x) && q(x))
  {
    if s != [] {
      FilterFilter(s[1..], p, q);
    }
  }

  /** Filtering by a condition that holds throughout keeps everything. */
  lemma {:induction false} FilterAll<T>(s: seq<T>, p: T -> bool)
    requires forall x :: x in s ==> p(x)
    ensures Filter(s, p) == s
  {
    if s != [] {
      FilterAll(s[1..], p);
    }
  }
}
