/** String helpers with the meaning Python's `str` methods have on the
    inputs the model uses: whitespace, stripping, prefixes, first occurrence
    of a substring, `replace`, slicing and decimal rendering of integers.
    Whitespace is the ASCII whitespace set of `str.isspace`. */
module Text {

  datatype Option<T> = None | Some(value: T)

  /** Python's `str.isspace` restricted to ASCII: space, \t, \n, \v, \f,
      \r and the four separators \x1c to \x1f.  The `\s` of a `str`
      regular expression matches the same characters. */
  predicate IsSpace(c: char) {
    c == ' ' || ('\t' <= c <= '\r') || ('\U{001C}' <= c <= '\U{001F}')
  }

  /** `not s.strip()`: the string is empty or made only of whitespace. */
  predicate IsBlank(s: string) {
    forall i :: 0 <= i < |s| ==> IsSpace(s[i])
  }

  /** The number of whitespace characters `s` starts with. */
  function LeadingSpace(s: string): (n: nat)
    ensures n <= |s|
  {
    if s == [] || !IsSpace(s[0]) then 0 else 1 + LeadingSpace(s[1..])
  }

  /** The number of whitespace characters `s` ends with. */
  function TrailingSpace(s: string): (n: nat)
    ensures n <= |s|
  {
    if s == [] || !IsSpace(s[|s| - 1]) then 0 else 1 + TrailingSpace(s[..|s| - 1])
  }

  /** `s.lstrip()` */
  function LStrip(s: string): string {
    s[LeadingSpace(s)..]
  }

  /** `s.rstrip()` */
  function RStrip(s: string): string {
    s[..|s| - TrailingSpace(s)]
  }

  /** `s.strip()` */
  function Strip(s: string): string {
    RStrip(LStrip(s))
  }

  /** `strip` keeps one slice: from the end of the leading whitespace to
      the start of the trailing whitespace. */
  lemma {:induction false} StripIsSlice(s: string)
    ensures var a := LeadingSpace(s);
      a <= |s| - TrailingSpace(s[a..]) && Strip(s) == s[a..|s| - TrailingSpace(s[a..])]
  {
    var a := LeadingSpace(s);
    assert |s[a..]| == |s| - a;
  }

  /** `lstrip` removes exactly the leading run of whitespace. */
  lemma {:induction false} LeadingSpaceIsRun(s: string)
    ensures IsBlank(s[..LeadingSpace(s)])
    ensures LeadingSpace(s) == |s| || !IsSpace(s[LeadingSpace(s)])
  {
    if s != [] && IsSpace(s[0]) {
      LeadingSpaceIsRun(s[1..]);
      assert s[..LeadingSpace(s)] == [s[0]] + s[1..][..LeadingSpace(s[1..])];
    }
  }

  /** `rstrip` removes exactly the trailing run of whitespace. */
  lemma {:induction false} TrailingSpaceIsRun(s: string)
    ensures IsBlank(s[|s| - TrailingSpace(s)..])
    ensures TrailingSpace(s) == |s| || !IsSpace(s[|s| - TrailingSpace(s) - 1])
  {
    if s != [] && IsSpace(s[|s| - 1]) {
      var s' := s[..|s| - 1];
      TrailingSpaceIsRun(s');
      var n, n' := TrailingSpace(s), TrailingSpace(s');
      assert n == n' + 1;
      var tail := s'[|s'| - n'..];
      var run := tail + [s[|s| - 1]];
      assert s[|s| - n..] == run;
      forall i | 0 <= i < n ensures IsSpace(run[i]) {
        if i < n' { assert run[i] == tail[i]; }
      }
      if n < |s| {
        assert s[|s| - n - 1] == s'[|s'| - n' - 1];
      }
    }
  }

  /** A string strips to nothing exactly when it is blank. */
  lemma {:induction false} StripEmptyIffBlank(s: string)
    ensures Strip(s) == [] <==> IsBlank(s)
  {
    LeadingSpaceIsRun(s);
    var l := LStrip(s);
    TrailingSpaceIsRun(l);
    if Strip(s) == [] {
      assert l == l[|l| - TrailingSpace(l)..];
      assert s == s[..LeadingSpace(s)] + l;
    }
  }

  /** Left-stripping a concatenation: the whitespace run may span both parts. */
  lemma {:induction false} LStripAppend(a: string, b: string)
    ensures LStrip(a + b) == if IsBlank(a) then LStrip(b) else LStrip(a) + b
  {
    if a == [] {
      assert a + b == b;
    } else if IsSpace(a[0]) {
      assert (a + b)[1..] == a[1..] + b;
      LStripAppend(a[1..], b);
    } else {
      assert (a + b)[0] == a[0];
    }
  }

  predicate StartsWith(s: string, p: string) {
    |p| <= |s| && s[..|p|] == p
  }

  /** A non-empty prefix found after left-stripping `a` survives appending to `a`. */
  lemma {:induction false} LStripStartsWithAppend(a: string, b: string, p: string)
    requires p != [] && StartsWith(LStrip(a), p)
    ensures StartsWith(LStrip(a + b), p)
  {
    var l := LStrip(a);
    LeadingSpaceIsRun(a);
    assert !IsBlank(a) by {
      assert a[LeadingSpace(a)] == l[0];
    }
    LStripAppend(a, b);
    assert (l + b)[..|p|] == l[..|p|];
  }

  /** A string that neither starts with `p` nor is a prefix of `p` keeps
      not starting with `p` whatever is appended to it. */
  lemma {:induction false} NotStartsWithAppend(l: string, r: string, p: string)
    requires !StartsWith(l, p) && !StartsWith(p, l)
    ensures !StartsWith(l + r, p)
  {
    if |p| <= |l| {
      assert (l + r)[..|p|] == l[..|p|];
    } else {
      assert (l + r)[..|l|] == l;
    }
  }

  predicate EndsWith(s: string, p: string) {
    |p| <= |s| && s[|s| - |p|..] == p
  }

  /** `s` is `t` preceded by whitespace only. */
  predicate BlankThen(s: string, t: string) {
    EndsWith(s, t) && IsBlank(s[..|s| - |t|])
  }

  /** Whitespace in front of a string that starts with a visible character
      can only be none. */
  lemma {:induction false} BlankThenVisible(s: string, t: string)
    requires BlankThen(s, t)
    ensures s == [] || !IsSpace(s[0]) ==> t == s
  {
    if |t| < |s| {
      assert s[..|s| - |t|][0] == s[0];
    }
  }

  /** `p` occurs in `s` at position `j`. */
  predicate OccursAt(s: string, p: string, j: int) {
    0 <= j && j + |p| <= |s| && s[j..j + |p|] == p
  }

  /** The first position at or after `from` where `p` occurs in `s`. */
  function FindFrom(s: string, p: string, from: nat): Option<nat>
    requires from <= |s|
    decreases |s| - from
  {
    if OccursAt(s, p, from) then Some(from)
    else if from == |s| then None
    else FindFrom(s, p, from + 1)
  }

  /** The search finds an occurrence, and none is skipped before it. */
  lemma {:induction false} FindFromFirst(s: string, p: string, from: nat)
    requires from <= |s|
    ensures FindFrom(s, p, from).Some? ==>
              from <= FindFrom(s, p, from).value && OccursAt(s, p, FindFrom(s, p, from).value)
    ensures forall j :: from <= j && (FindFrom(s, p, from).None? || j < FindFrom(s, p, from).value) ==>
              !OccursAt(s, p, j)
    decreases |s| - from
  {
    if !OccursAt(s, p, from) && from < |s| {
      FindFromFirst(s, p, from + 1);
    }
  }

  /** `s.find(p)`, as an option. */
  function IndexOf(s: string, p: string): Option<nat> {
    FindFrom(s, p, 0)
  }

  /** `s.find(p)` is the first occurrence of `p` in `s`. */
  lemma {:induction false} IndexOfFirst(s: string, p: string)
    ensures IndexOf(s, p).Some? ==> OccursAt(s, p, IndexOf(s, p).value)
    ensures forall j :: 0 <= j && (IndexOf(s, p).None? || j < IndexOf(s, p).value) ==> !OccursAt(s, p, j)
  {
    FindFromFirst(s, p, 0);
  }

  /** `p in s` */
  predicate Contains(s: string, p: string) {
    IndexOf(s, p).Some?
  }

  lemma {:induction false} ContainsIffOccurs(s: string, p: string)
    ensures Contains(s, p) <==> exists j :: OccursAt(s, p, j)
  {
    IndexOfFirst(s, p);
    if Contains(s, p) {
      assert OccursAt(s, p, IndexOf(s, p).value);
    }
  }

  /** The third part of `s.partition(p)` when `p` occurs: what follows its
      first occurrence. */
  function AfterFirst(s: string, p: string): (r: string)
    requires Contains(s, p)
    ensures |r| <= |s| && r == s[|s| - |r|..]
  {
    IndexOfFirst(s, p);
    s[IndexOf(s, p).value + |p|..]
  }

  /** What `partition` leaves as its third part follows an occurrence of
      the separator, and no occurrence comes earlier. */
  lemma {:induction false} AfterFirstFollows(s: string, p: string)
    requires Contains(s, p)
    ensures var r := AfterFirst(s, p);
      |r| + |p| <= |s| && OccursAt(s, p, |s| - |r| - |p|) &&
      forall j :: 0 <= j < |s| - |r| - |p| ==> !OccursAt(s, p, j)
  {
    IndexOfFirst(s, p);
  }

  /** `s.replace(p, "", 1)`: the first occurrence of `p` cut out. */
  function RemoveFirst(s: string, p: string): (r: string)
    ensures !Contains(s, p) ==> r == s
    ensures Contains(s, p) ==> |r| + |p| == |s|
  {
    IndexOfFirst(s, p);
    match IndexOf(s, p)
      case None => s
      case Some(j) => s[..j] + s[j + |p|..]
  }

  /** Putting `p` back where `replace(p, "", 1)` cut it out gives the text
      back, and no earlier occurrence was passed over. */
  lemma {:induction false} RemoveFirstRestores(s: string, p: string)
    requires Contains(s, p)
    ensures var r := RemoveFirst(s, p);
      var j := IndexOf(s, p).value;
      j <= |r| && r[..j] + p + r[j..] == s && forall k :: 0 <= k < j ==> !OccursAt(s, p, k)
  {
    IndexOfFirst(s, p);
    var j := IndexOf(s, p).value;
    var r := RemoveFirst(s, p);
    assert r[..j] == s[..j];
    assert r[j..] == s[j + |p|..];
    assert s[j..j + |p|] == p;
    assert s == s[..j] + s[j..j + |p|] + s[j + |p|..];
  }

  /** `s.replace(a, b)` for single characters. */
  function ReplaceChar(s: string, a: char, b: char): (r: string)
    ensures |r| == |s|
    ensures forall i :: 0 <= i < |s| ==> r[i] == (if s[i] == a then b else s[i])
  {
    if s == [] then [] else [if s[0] == a then b else s[0]] + ReplaceChar(s[1..], a, b)
  }

  /** `s.lower()` on ASCII letters. */
  function Lower(s: string): (r: string)
    ensures |r| == |s|
  {
    if s == [] then []
    else [if 'A' <= s[0] <= 'Z' then (s[0] as int + 32) as char else s[0]] + Lower(s[1..])
  }

  /** `s[:n]` for `n >= 0`, on strings and lists. */
  function Take<T>(s: seq<T>, n: nat): (r: seq<T>)
    ensures |r| <= n && |r| <= |s| && r == s[..|r|]
    ensures |s| <= n ==> r == s
    ensures n <= |s| ==> |r| == n
  {
    if |s| <= n then s else s[..n]
  }

  /** `sep.join(parts)` */
  function Join(parts: seq<string>, sep: string): string {
    if parts == [] then []
    else if |parts| == 1 then parts[0]
    else parts[0] + sep + Join(parts[1..], sep)
  }

  function Digit(d: nat): (c: char)
    requires d < 10
    ensures '0' <= c <= '9'
  {
    ['0', '1', '2', '3', '4', '5', '6', '7', '8', '9'][d]
  }

  /** `str(n)` for a natural number. */
  function NatToString(n: nat): (r: string)
    ensures |r| > 0
    ensures forall i :: 0 <= i < |r| ==> '0' <= r[i] <= '9'
  {
    if n < 10 then [Digit(n)] else NatToString(n / 10) + [Digit(n % 10)]
  }

  lemma {:induction false} DigitInjective(a: nat, b: nat)
    requires a < 10 && b < 10 && a != b
    ensures Digit(a) != Digit(b)
  {
    var digits := ['0', '1', '2', '3', '4', '5', '6', '7', '8', '9'];
    assert forall i, j :: 0 <= i < j < 10 ==> digits[i] < digits[j];
  }

  /** Numbers with ten or more have at least two digits. */
  lemma {:induction false} NatToStringLong(n: nat)
    requires n >= 10
    ensures |NatToString(n)| >= 2
  {
  }

  /** Different numbers are written differently. */
  lemma {:induction false} NatToStringInjective(a: nat, b: nat)
    requires NatToString(a) == NatToString(b)
    ensures a == b
    decreases a
  {
    var s := NatToString(a);
    if a < 10 && b < 10 {
      if a != b {
        DigitInjective(a, b);
      }
    } else if a < 10 {
      NatToStringLong(b);
    } else if b < 10 {
      NatToStringLong(a);
    } else {
      assert s[|s| - 1] == Digit(a % 10) && s[|s| - 1] == Digit(b % 10);
      if a % 10 != b % 10 {
        DigitInjective(a % 10, b % 10);
      }
      assert NatToString(a / 10) == s[..|s| - 1] == NatToString(b / 10);
      NatToStringInjective(a / 10, b / 10);
    }
  }

  /** `str(n)` for an integer. */
  function IntToString(n: int): (r: string)
    ensures |r| > 0
  {
    if n < 0 then "-" + NatToString(-n) else NatToString(n)
  }

  /** Concatenation of a sequence of strings, `"".join(parts)`. */
  function Concat(parts: seq<string>): (r: string)
  {
    if parts == [] then [] else Concat(parts[..|parts| - 1]) + parts[|parts| - 1]
  }

  /** Regrouping a concatenation, stated once so that callers need not
      rediscover it in a large context. */
  lemma {:induction false} AppendAssoc<T>(a: seq<T>, b: seq<T>, c: seq<T>)
    ensures (a + b) + c == a + (b + c)
  {
  }

  /** A slice inside the second half of a concatenation. */
  lemma {:induction false} SliceOfSecond<T>(a: seq<T>, b: seq<T>, i: nat, j: nat)
    requires i <= j <= |b|
    ensures (a + b)[|a| + i..|a| + j] == b[i..j]
  {
  }

  /** A slice inside the first half of a concatenation. */
  lemma {:induction false} SliceOfFirst<T>(a: seq<T>, b: seq<T>, i: nat, j: nat)
    requires i <= j <= |a|
    ensures (a + b)[i..j] == a[i..j]
  {
  }

  /** A slice of the part that follows a prefix and one more element. */
  lemma {:induction false} SliceAfterHead<T>(pre: seq<T>, head: T, body: seq<T>, i: nat, j: nat)
    requires i <= j <= |body|
    ensures (pre + ([head] + body))[|pre| + 1 + i..|pre| + 1 + j] == body[i..j]
  {
    assert pre + ([head] + body) == (pre + [head]) + body;
    SliceOfSecond(pre + [head], body, i, j);
  }

  /** One more part extends the concatenation by that part. */
  lemma {:induction false} ConcatSnoc(parts: seq<string>, s: string)
    ensures Concat(parts + [s]) == Concat(parts) + s
  {
    assert (parts + [s])[..|parts|] == parts;
  }

  lemma {:induction false} ConcatFirst(parts: seq<string>)
    requires parts != []
    ensures Concat(parts) == parts[0] + Concat(parts[1..])
  {
    ConcatAppend([parts[0]], parts[1..]);
    assert [parts[0]] + parts[1..] == parts;
    assert [parts[0]][..0] == [];
  }

  /** Splitting the parts splits the concatenation. */
  lemma {:induction false} ConcatSplit(parts: seq<string>, k: nat)
    requires k <= |parts|
    ensures Concat(parts) == Concat(parts[..k]) + Concat(parts[k..])
  {
    assert parts[..k] + parts[k..] == parts;
    ConcatAppend(parts[..k], parts[k..]);
  }

  lemma {:induction false} ConcatAppend(a: seq<string>, b: seq<string>)
    ensures Concat(a + b) == Concat(a) + Concat(b)
    decreases |b|
  {
    if b == [] {
      assert a + b == a;
    } else {
      var b' := b[..|b| - 1];
      assert (a + b)[..|a + b| - 1] == a + b';
      assert (a + b)[|a + b| - 1] == b[|b| - 1];
      ConcatAppend(a, b');
      calc {
        Concat(a + b);
        Concat(a + b') + b[|b| - 1];
        Concat(a) + Concat(b') + b[|b| - 1];
        Concat(a) + Concat(b);
      }
    }
  }
}
