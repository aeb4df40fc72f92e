/** Decimal text, as `std::to_string` prints it and `strtoull` / `std::stoul` read it. */
module Decimal {
  import opened Options

  const UINT64_MAX: nat := 0xFFFF_FFFF_FFFF_FFFF

  predicate IsDigit(c: char) {
    '0' <= c <= '9'
  }

  predicate AllDigits(s: string) {
    forall i | 0 <= i < |s| :: IsDigit(s[i])
  }

  function DigitChar(d: nat): char
    requires d < 10
  {
    '0' + d as char
  }

  /** `std::to_string` on an unsigned value. */
  function ToDec(n: nat): (s: string)
    ensures s != [] && AllDigits(s)
  {
    if n < 10 then [DigitChar(n)] else ToDec(n / 10) + [DigitChar(n % 10)]
  }

  function Value(s: string): nat
    requires AllDigits(s)
  {
    if s == [] then 0
    else Value(s[..|s| - 1]) * 10 + (s[|s| - 1] as int - '0' as int)
  }

  lemma {:induction false} ValueOfToDec(n: nat)
    ensures Value(ToDec(n)) == n
  {
    if n >= 10 {
      ValueOfToDec(n / 10);
      var s := ToDec(n);
      assert s[..|s| - 1] == ToDec(n / 10);
    }
  }

  lemma ToDecInjective(m: nat, n: nat)
    requires ToDec(m) == ToDec(n)
    ensures m == n
  {
    ValueOfToDec(m);
    ValueOfToDec(n);
  }

  /** `str_to_size_t`: empty means the default; a sign, other junk or a value over 2^64 - 1 is an error. */
  function StrToSize(s: string, default: nat): Option<nat> {
    if s == [] then Some(default)
    else if !AllDigits(s) then None
    else if Value(s) > UINT64_MAX then None
    else Some(Value(s))
  }

  /** The length of the longest prefix made of digits. */
  function DigitPrefix(s: string): (n: nat)
    ensures n <= |s| && AllDigits(s[..n]) && (n < |s| ==> !IsDigit(s[n]))
  {
    if s == [] || !IsDigit(s[0]) then 0
    else
      var n := 1 + DigitPrefix(s[1..]);
      assert forall i | 0 < i < n :: s[..n][i] == s[1..][..n - 1][i - 1];
      n
  }

  /** `std::stoul`: reads the leading digits, ignores what follows, throws (`None`) on no digits or overflow. */
  function Stoul(s: string): Option<nat> {
    var digits := s[..DigitPrefix(s)];
    if digits == [] || Value(digits) > UINT64_MAX then None else Some(Value(digits))
  }

  lemma StoulOfToDec(n: nat)
    requires n <= UINT64_MAX
    ensures Stoul(ToDec(n)) == Some(n)
  {
    var s := ToDec(n);
    assert DigitPrefix(s) == |s|;
    assert s[..|s|] == s;
    ValueOfToDec(n);
  }
}

/** Splitting, joining and mangling of key expressions. */
module KeyExpr {
  const SLASH := '/'
  const SLASH_REPLACEMENT := '%'

  function Split(s: string, delim: char): (parts: seq<string>)
    ensures |parts| > 0
  {
    if s == [] then [""]
    else
      var rest := Split(s[1..], delim);
      if s[0] == delim then [""] + rest else [[s[0]] + rest[0]] + rest[1..]
  }

  function Join(parts: seq<string>, delim: char): string
    requires |parts| > 0
  {
    if |parts| == 1 then parts[0] else parts[0] + [delim] + Join(parts[1..], delim)
  }

  lemma {:induction false} SplitHead(a: string, rest: string, delim: char)
    requires delim !in a
    ensures Split(a + [delim] + rest, delim) == [a] + Split(rest, delim)
  {
    var s := a + [delim] + rest;
    if a == [] {
      assert s[1..] == rest;
    } else {
      assert s[1..] == a[1..] + [delim] + rest;
      SplitHead(a[1..], rest, delim);
      assert [a[0]] + a[1..] == a;
    }
  }

  lemma {:induction false} SplitWhole(a: string, delim: char)
    requires delim !in a
    ensures Split(a, delim) == [a]
  {
    if a != [] {
      SplitWhole(a[1..], delim);
      assert [a[0]] + a[1..] == a;
    }
  }

  lemma {:induction false} SplitOfJoin(parts: seq<string>, delim: char)
    requires |parts| > 0
    requires forall i | 0 <= i < |parts| :: delim !in parts[i]
    ensures Split(Join(parts, delim), delim) == parts
  {
    if |parts| == 1 {
      SplitWhole(parts[0], delim);
    } else {
      SplitHead(parts[0], Join(parts[1..], delim), delim);
      SplitOfJoin(parts[1..], delim);
    }
  }

  lemma {:induction false} JoinOfSplit(s: string, delim: char)
    ensures Join(Split(s, delim), delim) == s
    ensures forall i | 0 <= i < |Split(s, delim)| :: delim !in Split(s, delim)[i]
  {
    if s != [] {
      JoinOfSplit(s[1..], delim);
      var rest := Split(s[1..], delim);
      if s[0] == delim {
        assert ([""] + rest)[1..] == rest;
      } else if |rest| > 1 {
        assert ([[s[0]] + rest[0]] + rest[1..])[1..] == rest[1..];
      }
    }
  }

  /** `std::string::find(c, start)`, with the length of the string standing for `npos`. */
  function Find(s: string, c: char, start: nat): (pos: nat)
    requires start <= |s|
    ensures start <= pos <= |s|
    ensures c !in s[start..pos]
    ensures pos < |s| ==> s[pos] == c
    decreases |s| - start
  {
    if start == |s| || s[start] == c then start
    else
      var pos := Find(s, c, start + 1);
      assert s[start..pos] == [s[start]] + s[start + 1..pos];
      pos
  }

  lemma SplitAtFound(s: string, delim: char, start: nat)
    requires start <= |s|
    ensures var end := Find(s, delim, start);
            Split(s[start..], delim) ==
              if end < |s| then [s[start..end]] + Split(s[end + 1..], delim) else [s[start..]]
  {
    var end := Find(s, delim, start);
    if end < |s| {
      assert s[end..] == [delim] + s[end + 1..];
      assert s[start..] == s[start..end] + s[end..];
      assert s[start..] == s[start..end] + [delim] + s[end + 1..];
      SplitHead(s[start..end], s[end + 1..], delim);
    } else {
      assert s[start..] == s[start..end];
      SplitWhole(s[start..], delim);
    }
  }

  /** `split_keyexpr` cuts at every delimiter, and gluing the pieces gives the text back. */
  method SplitKeyexpr(keyexpr: string, delim: char) returns (result: seq<string>)
    ensures result == Split(keyexpr, delim)
  {
    result := [];
    var start := 0;
    var end := Find(keyexpr, delim, 0);
    ghost var rest := Split(keyexpr, delim);
    assert keyexpr[0..] == keyexpr;
    while end != |keyexpr|
      invariant start <= end <= |keyexpr|
      invariant end == Find(keyexpr, delim, start)
      invariant rest == Split(keyexpr[start..], delim)
      invariant Split(keyexpr, delim) == result + rest
      decreases |keyexpr| - start
    {
      SplitAtFound(keyexpr, delim, start);
      rest := Split(keyexpr[end + 1..], delim);
      result := result + [keyexpr[start..end]];
      start := end + 1;
      end := Find(keyexpr, delim, start);
    }
    SplitAtFound(keyexpr, delim, start);
    result := result + [keyexpr[start..]];
  }

  function Replace(s: string, from: char, to: char): (r: string)
    ensures |r| == |s|
    ensures forall i | 0 <= i < |s| :: r[i] == if s[i] == from then to else s[i]
  {
    if s == [] then [] else [if s[0] == from then to else s[0]] + Replace(s[1..], from, to)
  }

  function Mangle(s: string): string {
    Replace(s, SLASH, SLASH_REPLACEMENT)
  }

  function Demangle(s: string): string {
    Replace(s, SLASH_REPLACEMENT, SLASH)
  }

  /** Demangling undoes mangling exactly on the names that contain no replacement character. */
  lemma DemangleOfMangle(s: string)
    ensures SLASH !in Mangle(s) && |Mangle(s)| == |s|
    ensures Demangle(Mangle(s)) == s <==> SLASH_REPLACEMENT !in s
  {
    var r := Demangle(Mangle(s));
    if SLASH_REPLACEMENT in s {
      var i :| 0 <= i < |s| && s[i] == SLASH_REPLACEMENT;
      assert r[i] == SLASH;
    } else {
      assert forall i | 0 <= i < |s| :: r[i] == s[i];
    }
  }

  lemma DemangleHasNoReplacement(s: string)
    ensures SLASH_REPLACEMENT !in Demangle(s) && |Demangle(s)| == |s|
  {
  }

  method MangleName(input: string) returns (output: string)
    ensures output == Mangle(input)
  {
    output := "";
    for i := 0 to |input|
      invariant output == Mangle(input)[..i]
    {
      if input[i] == SLASH {
        output := output + [SLASH_REPLACEMENT];
      } else {
        output := output + [input[i]];
      }
    }
  }

  method DemangleName(input: string) returns (output: string)
    ensures output == Demangle(input)
  {
    output := "";
    for i := 0 to |input|
      invariant output == Demangle(input)[..i]
    {
      if input[i] == SLASH_REPLACEMENT {
        output := output + [SLASH];
      } else {
        output := output + [input[i]];
      }
    }
  }
}
