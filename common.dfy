/** Helpers shared by the hub model: options, strings as Python handles them,
    integer formatting and the ordering Python uses to compare strings. */
module Common {

  datatype Option<+T> = None | Some(value: T)

  datatype Result<+T, +E> = Ok(value: T) | Err(error: E)

  // ---------------------------------------------------------------------------
  // Substring search with Python's str.find / str.rfind conventions

  /** s[i..] begins with `sub`. */
  predicate MatchesAt(s: string, sub: string, i: nat)
  {
    i + |sub| <= |s| && s[i..i + |sub|] == sub
  }

  /** Python's s.find(sub): the first index at which `sub` occurs, or -1. */
  function Find(s: string, sub: string): (r: int)
    ensures -1 <= r <= |s|
    ensures r >= 0 ==> MatchesAt(s, sub, r)
    ensures r >= 0 ==> forall j :: 0 <= j < r ==> !MatchesAt(s, sub, j)
    ensures r == -1 ==> forall j :: 0 <= j <= |s| ==> !MatchesAt(s, sub, j)
    decreases |s|
  {
    if MatchesAt(s, sub, 0) then 0
    else if |s| == 0 then -1
    else
      var k := Find(s[1..], sub);
      assert forall j :: 1 <= j <= |s| ==> (MatchesAt(s, sub, j) <==> MatchesAt(s[1..], sub, j - 1)) by {
        forall j | 1 <= j <= |s| ensures MatchesAt(s, sub, j) <==> MatchesAt(s[1..], sub, j - 1) {
          if j + |sub| <= |s| { TailWindow(s, j, |sub|); }
        }
      }
      if k == -1 then -1 else k + 1
  }

  /** A window of s[1..] is the window of s one place further on. */
  lemma TailWindow(s: string, j: nat, n: nat)
    requires 1 <= j && j + n <= |s|
    ensures s[1..][j - 1..j - 1 + n] == s[j..j + n]
  {
    var w, v := s[1..][j - 1..j - 1 + n], s[j..j + n];
    forall i | 0 <= i < n ensures w[i] == v[i] {
      assert w[i] == s[1..][j - 1 + i];
    }
  }

  /** Python's `sub in s` for strings. */
  predicate Contains(s: string, sub: string)
  {
    Find(s, sub) >= 0
  }

  /** Python's s.rfind(sub): the last index at which `sub` occurs, or -1. */
  function RFind(s: string, sub: string): (r: int)
    ensures -1 <= r <= |s|
    ensures r >= 0 ==> MatchesAt(s, sub, r)
    ensures r >= 0 ==> forall j :: r < j <= |s| ==> !MatchesAt(s, sub, j)
    ensures r == -1 ==> forall j :: 0 <= j <= |s| ==> !MatchesAt(s, sub, j)
    decreases |s|
  {
    if |sub| > |s| then -1
    else if MatchesAt(s, sub, |s| - |sub|) then |s| - |sub|
    else
      var k := RFind(s[..|s| - 1], sub);
      assert forall j :: 0 <= j < |s| - |sub| ==> (MatchesAt(s, sub, j) <==> MatchesAt(s[..|s| - 1], sub, j)) by {
        forall j | 0 <= j < |s| - |sub| ensures MatchesAt(s, sub, j) <==> MatchesAt(s[..|s| - 1], sub, j) {
          assert s[j..j + |sub|] == s[..|s| - 1][j..j + |sub|];
        }
      }
      k
  }

  /** The position of the first occurrence of `x` in `s` (Python's list.index). */
  function IndexOf<T(==)>(s: seq<T>, x: T): (r: Option<nat>)
    ensures r.Some? ==> r.value < |s| && s[r.value] == x && x !in s[..r.value]
    ensures r.None? <==> x !in s
  {
    if |s| == 0 then None
    else if s[0] == x then Some(0)
    else
      var k := IndexOf(s[1..], x);
      assert s == [s[0]] + s[1..];
      if k.None? then None
      else
        assert s[..k.value + 1] == [s[0]] + s[1..][..k.value];
        Some(k.value + 1)
  }

  /** The elements of a sequence. */
  function SetOf<T>(s: seq<T>): set<T>
  {
    set x | x in s
  }

  /** No element occurs twice. */
  predicate NoDup<T(==)>(s: seq<T>)
  {
    forall i, j :: 0 <= i < j < |s| ==> s[i] != s[j]
  }

  /** Python's set(s) listed in first-occurrence order: each element once. */
  function Dedup<T(==)>(s: seq<T>): (r: seq<T>)
    ensures NoDup(r) && SetOf(r) == SetOf(s) && |r| <= |s|
  {
    if s == [] then []
    else
      var rest := Dedup(s[..|s| - 1]);
      assert SetOf(s) == SetOf(s[..|s| - 1]) + {s[|s| - 1]} by {
        assert s == s[..|s| - 1] + [s[|s| - 1]];
      }
      if s[|s| - 1] in rest then rest else rest + [s[|s| - 1]]
  }

  /** list.remove(x): drops the first occurrence of x; s when x is absent. */
  function RemoveFirst<T(==)>(s: seq<T>, x: T): (r: seq<T>)
    ensures x !in s ==> r == s
    ensures x in s ==> |r| == |s| - 1
    ensures SetOf(r) <= SetOf(s)
    ensures NoDup(s) ==> NoDup(r) && SetOf(r) == SetOf(s) - {x}
  {
    if s == [] then []
    else if s[0] == x then s[1..]
    else
      var rest := RemoveFirst(s[1..], x);
      assert s == [s[0]] + s[1..];
      assert SetOf(s) == {s[0]} + SetOf(s[1..]);
      assert SetOf([s[0]] + rest) == {s[0]} + SetOf(rest);
      assert NoDup(s) ==> NoDup(s[1..]) && s[0] !in SetOf(s[1..]) by {
        if NoDup(s) {
          forall i, j | 0 <= i < j < |s[1..]| ensures s[1..][i] != s[1..][j] {
            assert s[1..][i] == s[i + 1] && s[1..][j] == s[j + 1];
          }
        }
      }
      [s[0]] + rest
  }

  // ---------------------------------------------------------------------------
  // Case folding and joining

  /** Lower-cases ASCII letters and leaves every other character alone. */
  function LowerChar(c: char): char
  {
    if 'A' <= c <= 'Z' then (c as int + 32) as char else c
  }

  /** Python's str.lower() on a byte string: only ASCII letters change. */
  function Lower(s: string): (r: string)
    ensures |r| == |s|
    ensures forall i :: 0 <= i < |s| ==> r[i] == LowerChar(s[i])
  {
    if s == [] then [] else [LowerChar(s[0])] + Lower(s[1..])
  }

  /** `c` lower-cases to the ASCII letter `a`: it is `a`, its capital, or
      one of the two non-ASCII characters whose lowercase is ASCII,
      U+0130 (capital I with dot above, to 'i') and U+212A (Kelvin sign,
      to 'k'). */
  predicate FoldsTo(c: char, a: char)
  {
    c == a || c as int == a as int - 32 || (a == 'i' && c == '\U{0130}') || (a == 'k' && c == '\U{212A}')
  }

  /** Python 2's unicode.lower() as far as it can produce ASCII: the ASCII
      letters, U+0130 and U+212A are lower-cased; every other character is
      left alone. */
  function UnicodeLowerChar(c: char): (r: char)
    ensures 'a' <= r <= 'z' ==> FoldsTo(c, r)
    ensures r != c ==> 'A' <= c <= 'Z' || c == '\U{0130}' || c == '\U{212A}'
  {
    if c == '\U{0130}' then 'i' else if c == '\U{212A}' then 'k' else LowerChar(c)
  }

  /** Python 2's unicode.lower(), which the request parameters go through. */
  function UnicodeLower(s: string): (r: string)
    ensures |r| == |s|
    ensures forall i :: 0 <= i < |s| ==> r[i] == UnicodeLowerChar(s[i])
  {
    if s == [] then [] else [UnicodeLowerChar(s[0])] + UnicodeLower(s[1..])
  }

  /** A parameter lower-cases to an all-lowercase ASCII word exactly when it
      spells that word letter by letter in either case, with U+0130 allowed
      for 'i' and U+212A for 'k'. */
  lemma UnicodeLowerSpells(s: string, word: string)
    requires forall i :: 0 <= i < |word| ==> 'a' <= word[i] <= 'z'
    ensures UnicodeLower(s) == word <==> |s| == |word| && forall i :: 0 <= i < |s| ==> FoldsTo(s[i], word[i])
  {
    if |s| == |word| && forall i :: 0 <= i < |s| ==> FoldsTo(s[i], word[i]) {
      forall i | 0 <= i < |s|
        ensures UnicodeLower(s)[i] == word[i]
      {
        assert FoldsTo(s[i], word[i]);
      }
    }
  }

  /** Python's sep.join(parts). */
  function Join(sep: string, parts: seq<string>): string
  {
    if |parts| == 0 then ""
    else if |parts| == 1 then parts[0]
    else parts[0] + sep + Join(sep, parts[1..])
  }

  /** Python's s.strip() on the ASCII white space characters. */
  function Strip(s: string): (r: string)
    ensures |r| <= |s|
    ensures r != [] ==> !IsSpace(r[0]) && !IsSpace(r[|r| - 1])
  {
    if s == [] then []
    else if IsSpace(s[0]) then Strip(s[1..])
    else if IsSpace(s[|s| - 1]) then Strip(s[..|s| - 1])
    else s
  }

  predicate IsSpace(c: char)
  {
    c == ' ' || c == '\t' || c == '\n' || c == '\r' || c == '\U{0b}' || c == '\U{0c}'
  }

  // ---------------------------------------------------------------------------
  // Request parameters as webapp2 reads them

  /** request.get(name, default): the first value given for `name`. */
  function Get(params: seq<(string, string)>, name: string, default: string): (r: string)
    ensures (forall i :: 0 <= i < |params| ==> params[i].0 != name) ==> r == default
    ensures (exists i :: 0 <= i < |params| && params[i].0 == name)
            ==> exists i :: 0 <= i < |params| && params[i].0 == name && r == params[i].1
                            && forall j :: 0 <= j < i ==> params[j].0 != name
  {
    if params == [] then default
    else if params[0].0 == name then params[0].1
    else
      var r := Get(params[1..], name, default);
      assert forall i :: 1 <= i < |params| ==> params[i] == params[1..][i - 1];
      if exists i :: 0 <= i < |params| && params[i].0 == name then
        var i :| 0 <= i < |params| && params[i].0 == name;
        assert params[1..][i - 1].0 == name;
        r
      else r
  }

  /** request.get_all(name): every value given for `name`, in order. */
  function GetAll(params: seq<(string, string)>, name: string): (r: seq<string>)
    ensures |r| <= |params|
    ensures forall v :: v in r <==> exists i :: 0 <= i < |params| && params[i] == (name, v)
  {
    if params == [] then []
    else
      var rest := GetAll(params[1..], name);
      assert forall i :: 1 <= i < |params| ==> params[i] == params[1..][i - 1];
      if params[0].0 == name then [params[0].1] + rest else rest
  }

  function UnicodeLowerAll(vs: seq<string>): (r: seq<string>)
    ensures |r| == |vs| && forall i :: 0 <= i < |vs| ==> r[i] == UnicodeLower(vs[i])
  {
    if vs == [] then [] else [UnicodeLower(vs[0])] + UnicodeLowerAll(vs[1..])
  }

  /** Lists the elements of a set, each once, in whatever order the set
      yields them (Python's iteration over a set). */
  method SetToSeq<T>(s: set<T>) returns (r: seq<T>)
    ensures SetOf(r) == s && NoDup(r) && |r| == |s|
  {
    r := [];
    var rest := s;
    while rest != {}
      invariant rest <= s && SetOf(r) == s - rest && NoDup(r) && |r| + |rest| == |s|
      decreases |rest|
    {
      var x :| x in rest;
      assert SetOf(r + [x]) == SetOf(r) + {x};
      r := r + [x];
      rest := rest - {x};
    }
  }

  // ---------------------------------------------------------------------------
  // Integers formatted and parsed the way Python's str() and int() do

  function DigitChar(d: nat): char
    requires d < 10
  {
    ('0' as int + d) as char
  }

  predicate IsDigit(c: char)
  {
    '0' <= c <= '9'
  }

  /** Decimal digits of n, most significant first, without leading zeros. */
  function NatToString(n: nat): (r: string)
    ensures |r| >= 1
    ensures forall i :: 0 <= i < |r| ==> IsDigit(r[i])
    ensures (r[0] == '0') <==> n == 0
    ensures n == 0 ==> r == "0"
  {
    if n < 10 then [DigitChar(n)] else NatToString(n / 10) + [DigitChar(n % 10)]
  }

  /** Python's str(n) and '%d' % n. */
  function IntToString(n: int): string
  {
    if n < 0 then "-" + NatToString(-n) else NatToString(n)
  }

  /** The value of a string of decimal digits. */
  function DigitsValue(s: string): nat
    requires forall i :: 0 <= i < |s| ==> IsDigit(s[i])
  {
    if s == [] then 0
    else
      assert IsDigit(s[|s| - 1]);
      10 * DigitsValue(s[..|s| - 1]) + (s[|s| - 1] as int - '0' as int)
  }

  /** A non-empty digit string that does not start with '0' unless it is "0". */
  predicate IsCanonicalNat(s: string)
  {
    && s != []
    && (forall i :: 0 <= i < |s| ==> IsDigit(s[i]))
    && (s[0] == '0' ==> s == "0")
  }

  /** The check `s == str(int(s))`: the integer s denotes when it is written
      exactly as Python prints that integer, and None otherwise (every string
      int() rejects, and every string it accepts in another spelling such as
      " 5", "+5", "05" or "-0"). */
  function CanonicalIntValue(s: string): Option<int>
  {
    if |s| >= 2 && s[0] == '-' && IsCanonicalNat(s[1..]) && s[1] != '0' then Some(0 - DigitsValue(s[1..]) as int)
    else if IsCanonicalNat(s) then Some(DigitsValue(s))
    else None
  }

  lemma {:induction false} DigitsOfNat(n: nat)
    ensures DigitsValue(NatToString(n)) == n
  {
    if n >= 10 {
      DigitsOfNat(n / 10);
      var s := NatToString(n);
      assert s[..|s| - 1] == NatToString(n / 10);
    }
  }

  lemma {:induction false} NatOfDigits(s: string)
    requires IsCanonicalNat(s)
    ensures NatToString(DigitsValue(s)) == s
    decreases |s|
  {
    if |s| > 1 {
      var p := s[..|s| - 1];
      assert IsCanonicalNat(p);
      NatOfDigits(p);
      var v := DigitsValue(p);
      var d := s[|s| - 1] as int - '0' as int;
      assert DigitsValue(s) == 10 * v + d;
      assert (10 * v + d) / 10 == v && (10 * v + d) % 10 == d;
      assert s == p + [s[|s| - 1]];
    }
  }

  /** `s == str(int(s))` holds exactly for the strings Python prints for
      integers, and the value recovered is the one printed. */
  lemma {:induction false} CanonicalIntRoundTrip(n: int, s: string)
    ensures CanonicalIntValue(IntToString(n)) == Some(n)
    ensures CanonicalIntValue(s) == Some(n) ==> s == IntToString(n)
  {
    PrintedIsCanonical(n);
    if CanonicalIntValue(s) == Some(n) {
      CanonicalIsPrinted(n, s);
    }
  }

  lemma PrintedIsCanonical(n: int)
    ensures CanonicalIntValue(IntToString(n)) == Some(n)
  {
    if n < 0 {
      DigitsOfNat(-n);
      var t := IntToString(n);
      assert t[1..] == NatToString(-n);
    } else {
      DigitsOfNat(n);
    }
  }

  lemma CanonicalIsPrinted(n: int, s: string)
    requires CanonicalIntValue(s) == Some(n)
    ensures s == IntToString(n)
  {
    if |s| >= 2 && s[0] == '-' && IsCanonicalNat(s[1..]) && s[1] != '0' {
      NatOfDigits(s[1..]);
      assert s == "-" + s[1..];
      assert DigitsValue(s[1..]) != 0 by { assert NatToString(DigitsValue(s[1..]))[0] != '0'; }
    } else {
      NatOfDigits(s);
    }
  }

  /** 2 to the power n. */
  function Pow2(n: nat): (r: nat)
    ensures r >= 1
  {
    if n == 0 then 1 else 2 * Pow2(n - 1)
  }

  // ---------------------------------------------------------------------------
  // Exponential (base-2) backoff shared by confirmation, fetching and delivery

  /** The delay before the next attempt after `failures` failures. */
  function RetryDelay(period: int, failures: nat): int
  {
    period * Pow2(failures)
  }

  /** The sum of the delays of the first k retries. */
  function TotalDelay(period: int, k: nat): int
  {
    if k == 0 then 0 else TotalDelay(period, k - 1) + RetryDelay(period, k - 1)
  }

  /** k retries in a row wait period * (2^k - 1) seconds in all. */
  lemma {:induction false} TotalDelayClosedForm(period: int, k: nat)
    ensures TotalDelay(period, k) == period * (Pow2(k) - 1)
  {
    if k > 0 {
      TotalDelayClosedForm(period, k - 1);
      calc {
        TotalDelay(period, k);
        period * (Pow2(k - 1) - 1) + period * Pow2(k - 1);
        period * (2 * Pow2(k - 1) - 1);
      }
    }
  }

  // ---------------------------------------------------------------------------
  // Python's ordering of strings (code point by code point)

  /** a <= b in Python's string comparison. */
  predicate LexLe(a: string, b: string)
  {
    a == [] || (b != [] && (a[0] < b[0] || (a[0] == b[0] && LexLe(a[1..], b[1..]))))
  }

  lemma {:induction false} LexLeTotal(a: string, b: string)
    ensures LexLe(a, b) || LexLe(b, a)
  {
    if a != [] && b != [] && a[0] == b[0] { LexLeTotal(a[1..], b[1..]); }
  }

  lemma {:induction false} LexLeAntisymmetric(a: string, b: string)
    requires LexLe(a, b) && LexLe(b, a)
    ensures a == b
  {
    if a != [] && b != [] {
      LexLeAntisymmetric(a[1..], b[1..]);
      assert a == [a[0]] + a[1..] && b == [b[0]] + b[1..];
    }
  }

  lemma {:induction false} LexLeTransitive(a: string, b: string, c: string)
    requires LexLe(a, b) && LexLe(b, c)
    ensures LexLe(a, c)
  {
    if a != [] && b != [] && c != [] && a[0] == b[0] == c[0] {
      LexLeTransitive(a[1..], b[1..], c[1..]);
    }
  }

  lemma {:induction false} LexLeReflexive(a: string)
    ensures LexLe(a, a)
  {
    if a != [] { LexLeReflexive(a[1..]); }
  }
}
