/**
 * The Python string builtins the filter backend relies on, stated over
 * `seq<char>`: `startswith`, `endswith`, `find`/`rfind`, `split`, `join`,
 * `replace`, `lower` (as far as ASCII goes), `encode("ascii")`, `int()` and `str()`.
 */
module Text {
  import opened Options

  predicate StartsWith(s: string, prefix: string) {
    |prefix| <= |s| && s[..|prefix|] == prefix
  }

  predicate EndsWith(s: string, suffix: string) {
    |suffix| <= |s| && s[|s| - |suffix|..] == suffix
  }

  /** `sub` occurs in `s` starting at index `j`. */
  predicate OccursAt(s: string, sub: string, j: int) {
    0 <= j && j + |sub| <= |s| && s[j..j + |sub|] == sub
  }

  /** Python's `s.find(sub)`: the first index at which `sub` occurs. */
  function Find(s: string, sub: string): (r: Option<nat>)
    ensures r.Some? ==> OccursAt(s, sub, r.value)
    ensures r.Some? ==> forall j :: 0 <= j < r.value ==> !OccursAt(s, sub, j)
    ensures r.None? ==> forall j :: !OccursAt(s, sub, j)
    decreases |s|
  {
    if |s| < |sub| then None
    else if s[..|sub|] == sub then Some(0)
    else
      var tail := s[1..];
      var r := Find(tail, sub);
      OccursInTail(s, sub);
      assert !OccursAt(s, sub, 0);
      match r
      case None => None
      case Some(i) => Some(i + 1)
  }

  /** An occurrence at `j >= 1` is an occurrence at `j - 1` in `s[1..]`, and back. */
  lemma OccursInTail(s: string, sub: string)
    requires |s| > 0
    ensures forall j :: 1 <= j ==> (OccursAt(s, sub, j) <==> OccursAt(s[1..], sub, j - 1))
  {
    var tail := s[1..];
    forall j | 1 <= j ensures OccursAt(s, sub, j) <==> OccursAt(tail, sub, j - 1) {
      if j + |sub| <= |s| {
        var here, there := s[j..j + |sub|], tail[j - 1..j - 1 + |sub|];
        forall i | 0 <= i < |sub| ensures here[i] == there[i] {
          assert tail[j - 1 + i] == s[j + i];
        }
        assert here == there;
      }
    }
  }

  /** Python's `sub in s`. */
  predicate Contains(s: string, sub: string) {
    Find(s, sub).Some?
  }

  /** Python's `s.rfind(sub)`: the last index at which `sub` occurs. */
  function FindLast(s: string, sub: string): (r: Option<nat>)
    ensures r.Some? ==> OccursAt(s, sub, r.value)
    ensures r.Some? ==> forall j :: r.value < j ==> !OccursAt(s, sub, j)
    ensures r.None? ==> forall j :: !OccursAt(s, sub, j)
    decreases |s|
  {
    if |s| < |sub| then None
    else if OccursAt(s, sub, |s| - |sub|) then Some(|s| - |sub|)
    else
      var init := s[..|s| - 1];
      var r := FindLast(init, sub);
      OccursInPrefix(s, sub, |s| - 1);
      r
  }

  /** An occurrence that ends within the first `n` characters is an occurrence in `s[..n]`, and back. */
  lemma OccursInPrefix(s: string, sub: string, n: nat)
    requires n <= |s|
    ensures forall j :: j + |sub| <= n ==> (OccursAt(s, sub, j) <==> OccursAt(s[..n], sub, j))
  {
    forall j | 0 <= j && j + |sub| <= n ensures OccursAt(s, sub, j) <==> OccursAt(s[..n], sub, j) {
      assert s[j..j + |sub|] == s[..n][j..j + |sub|];
    }
  }

  /** Python's `s.split(sep)` for a non-empty separator. */
  function Split(s: string, sep: string): (r: seq<string>)
    requires |sep| > 0
    ensures |r| > 0
    decreases |s|
  {
    match Find(s, sep)
    case None => [s]
    case Some(i) => [s[..i]] + Split(s[i + |sep|..], sep)
  }

  /** Python's `sep.join(parts)`. */
  function Join(parts: seq<string>, sep: string): string {
    if parts == [] then ""
    else if |parts| == 1 then parts[0]
    else parts[0] + sep + Join(parts[1..], sep)
  }

  /** Joining two non-empty lists puts one separator between the two joined halves. */
  lemma {:induction false} JoinAppend(a: seq<string>, b: seq<string>, sep: string)
    requires a != [] && b != []
    ensures Join(a + b, sep) == Join(a, sep) + sep + Join(b, sep)
    decreases |a|
  {
    assert (a + b)[0] == a[0];
    if |a| == 1 {
      assert (a + b)[1..] == b;
    } else {
      var rest := a[1..];
      JoinAppend(rest, b, sep);
      assert (a + b)[1..] == rest + b;
      assert Join(a + b, sep) == a[0] + sep + (Join(rest, sep) + sep + Join(b, sep));
      assert Join(a, sep) == a[0] + sep + Join(rest, sep);
    }
  }

  /** Splitting and joining again on the same separator gives the string back. */
  lemma {:induction false} JoinSplit(s: string, sep: string)
    requires |sep| > 0
    ensures Join(Split(s, sep), sep) == s
    decreases |s|
  {
    match Find(s, sep)
    case None =>
    case Some(i) =>
      var rest := s[i + |sep|..];
      var tail := Split(rest, sep);
      JoinSplit(rest, sep);
      assert Split(s, sep) == [s[..i]] + tail;
      assert ([s[..i]] + tail)[1..] == tail;
      AroundOccurrence(s, sep, i);
  }

  /** A string is what comes before an occurrence, the occurrence, and what follows it. */
  lemma AroundOccurrence(s: string, sub: string, i: int)
    requires OccursAt(s, sub, i)
    ensures s == s[..i] + sub + s[i + |sub|..]
  {
    assert s == s[..i] + s[i..i + |sub|] + s[i + |sub|..];
  }

  /** No piece of a split holds the separator. */
  lemma {:induction false} SplitPiecesAvoidSeparator(s: string, sep: string)
    requires |sep| > 0
    ensures forall k :: 0 <= k < |Split(s, sep)| ==> !Contains(Split(s, sep)[k], sep)
    decreases |s|
  {
    match Find(s, sep)
    case None =>
    case Some(i) =>
      var rest := s[i + |sep|..];
      SplitPiecesAvoidSeparator(rest, sep);
      FirstPieceAvoidsSeparator(s, sep, i);
      var pieces := Split(s, sep);
      assert pieces == [s[..i]] + Split(rest, sep);
      forall k | 0 <= k < |pieces| ensures !Contains(pieces[k], sep) {
        if k > 0 {
          assert pieces[k] == Split(rest, sep)[k - 1];
        }
      }
  }

  /** The text before the first occurrence of `sep` holds no occurrence of it. */
  lemma FirstPieceAvoidsSeparator(s: string, sep: string, i: nat)
    requires |sep| > 0 && Find(s, sep) == Some(i)
    ensures !Contains(s[..i], sep)
  {
    var head := s[..i];
    forall j | 0 <= j ensures OccursAt(head, sep, j) ==> OccursAt(s, sep, j) && j < i {
      if j + |sep| <= |head| {
        assert head[j..j + |sep|] == s[j..j + |sep|];
      }
    }
    assert forall j :: !OccursAt(head, sep, j);
  }

  /** Python's `s.replace(pat, rep)`: every non-overlapping occurrence, left to right. */
  function ReplaceAll(s: string, pat: string, rep: string): (r: string)
    decreases |s|
  {
    if pat == [] then
      // Python inserts `rep` before every character and at the end.
      if s == [] then rep else rep + [s[0]] + ReplaceAll(s[1..], pat, rep)
    else if |s| < |pat| then s
    else if s[..|pat|] == pat then rep + ReplaceAll(s[|pat|..], pat, rep)
    else [s[0]] + ReplaceAll(s[1..], pat, rep)
  }

  /** `s` with every occurrence of the character `c` dropped. */
  function Without(s: string, c: char): (r: string)
    ensures c !in r
    ensures |r| <= |s|
    ensures forall x :: x != c ==> multiset(r)[x] == multiset(s)[x]
  {
    if s == [] then []
    else if s[0] == c then
      assert s == [s[0]] + s[1..];
      Without(s[1..], c)
    else
      assert s == [s[0]] + s[1..];
      [s[0]] + Without(s[1..], c)
  }

  /** Replacing a one-character string by nothing drops that character and keeps the rest. */
  lemma {:induction false} ReplaceCharByNothing(s: string, c: char)
    ensures ReplaceAll(s, [c], "") == Without(s, c)
    decreases |s|
  {
    if s != [] {
      ReplaceCharByNothing(s[1..], c);
    }
  }

  /** When `pat` does not occur, `replace` leaves the string alone. */
  lemma {:induction false} ReplaceAbsent(s: string, pat: string, rep: string)
    requires |pat| > 0 && !Contains(s, pat)
    ensures ReplaceAll(s, pat, rep) == s
    decreases |s|
  {
    if |s| >= |pat| {
      assert !OccursAt(s, pat, 0);
      var tail := s[1..];
      forall j | 1 <= j ensures OccursAt(tail, pat, j - 1) ==> OccursAt(s, pat, j) {
        if j - 1 + |pat| <= |tail| {
          assert tail[j - 1..j - 1 + |pat|] == s[j..j + |pat|];
        }
      }
      ReplaceAbsent(tail, pat, rep);
      assert s == [s[0]] + tail;
    }
  }

  /** Python's `s.encode("ascii")` succeeds. */
  predicate IsAscii(s: string) {
    forall i :: 0 <= i < |s| ==> (s[i] as int) < 128
  }

  function LowerChar(c: char): char {
    if 'A' <= c <= 'Z' then (c as int + 32) as char else c
  }

  /**
   * Python's `s.lower()` on ASCII letters. The only use is a comparison with
   * the all-ASCII words "none" and "null", and no non-ASCII character
   * lower-cases to one of their letters.
   */
  function Lower(s: string): (r: string)
    ensures |r| == |s|
    ensures forall i :: 0 <= i < |s| ==> r[i] == LowerChar(s[i])
  {
    seq(|s|, i requires 0 <= i < |s| => LowerChar(s[i]))
  }

  predicate IsDigit(c: char) {
    '0' <= c <= '9'
  }

  predicate AllDigits(s: string) {
    forall i :: 0 <= i < |s| ==> IsDigit(s[i])
  }

  function DigitValue(c: char): nat
    requires IsDigit(c)
  {
    c as int - '0' as int
  }

  /** The value of a run of decimal digits, most significant first. */
  function DigitsValue(s: string): nat
    requires AllDigits(s)
  {
    if s == [] then 0 else 10 * DigitsValue(s[..|s| - 1]) + DigitValue(s[|s| - 1])
  }

  /** Python's `int(s)` on an optional sign followed by decimal digits; `None` stands for ValueError. */
  function ParseInt(s: string): (r: Option<int>)
    ensures r.Some? ==> |s| > 0
  {
    if |s| > 1 && (s[0] == '-' || s[0] == '+') && AllDigits(s[1..]) then
      var n: int := DigitsValue(s[1..]);
      Some(if s[0] == '-' then -n else n)
    else if |s| > 0 && AllDigits(s) then Some(DigitsValue(s))
    else None
  }

  function DigitChar(d: nat): (c: char)
    requires d < 10
    ensures IsDigit(c) && DigitValue(c) == d
  {
    ('0' as int + d) as char
  }

  /** Python's `str(n)` for a natural number. */
  function NatToString(n: nat): (s: string)
    decreases n
  {
    if n < 10 then [DigitChar(n)] else NatToString(n / 10) + [DigitChar(n % 10)]
  }

  /** Python's `str(i)`. */
  function IntToString(i: int): string {
    if i < 0 then "-" + NatToString(-i) else NatToString(i)
  }

  lemma {:induction false} NatToStringDigits(n: nat)
    ensures |NatToString(n)| > 0 && AllDigits(NatToString(n))
    ensures DigitsValue(NatToString(n)) == n
    decreases n
  {
    if n >= 10 {
      NatToStringDigits(n / 10);
      var s := NatToString(n);
      assert s[..|s| - 1] == NatToString(n / 10);
    }
  }

  /** `int(str(i)) == i`: writing an integer as text and parsing it back gives it again. */
  lemma IntToStringRoundTrip(i: int)
    ensures ParseInt(IntToString(i)) == Some(i)
  {
    if i < 0 {
      NatToStringDigits(-i);
      assert IntToString(i)[1..] == NatToString(-i);
    } else {
      NatToStringDigits(i);
    }
  }
}
