/** The few Python `str` built-ins the bot relies on, restricted to ASCII:
    `lower`, `startswith`, `endswith`, `in`, `find`, `split`, `join`,
    `int(...)` and `str(int)`. */
module PyText {

  datatype Option<T> = None | Some(value: T)

  // ---------------------------------------------------------------- case

  function LowerChar(c: char): char {
    if 'A' <= c <= 'Z' then (c as int + 32) as char else c
  }

  /** `s.lower()` on ASCII letters. */
  function Lower(s: string): (r: string)
    ensures |r| == |s|
    ensures forall i :: 0 <= i < |s| ==> r[i] == LowerChar(s[i])
  {
    if s == [] then [] else [LowerChar(s[0])] + Lower(s[1..])
  }

  lemma LowerIdempotent(s: string)
    ensures Lower(Lower(s)) == Lower(s)
  {
    assert forall i :: 0 <= i < |s| ==> LowerChar(LowerChar(s[i])) == LowerChar(s[i]);
  }

  lemma LowerHasNoUpper(s: string)
    ensures forall i :: 0 <= i < |s| ==> !('A' <= Lower(s)[i] <= 'Z')
  {
  }

  // ---------------------------------------------------------- substrings

  predicate StartsWith(s: string, p: string) {
    |p| <= |s| && s[..|p|] == p
  }

  predicate EndsWith(s: string, p: string) {
    |p| <= |s| && s[|s| - |p|..] == p
  }

  /** `p` occurs in `s` starting at index `k`. */
  predicate OccursAt(s: string, p: string, k: nat) {
    k + |p| <= |s| && s[k..k + |p|] == p
  }

  /** `s.find(p, k)`: the first occurrence of `p` at or after `k`. */
  function FindFrom(s: string, p: string, k: nat): (r: Option<nat>)
    decreases |s| - k
    ensures r.Some? ==> k <= r.value && OccursAt(s, p, r.value)
    ensures r.Some? ==> forall j :: k <= j < r.value ==> !OccursAt(s, p, j)
    ensures r.None? ==> forall j :: k <= j ==> !OccursAt(s, p, j)
  {
    if k + |p| > |s| then None
    else if s[k..k + |p|] == p then Some(k)
    else FindFrom(s, p, k + 1)
  }

  function Find(s: string, p: string): Option<nat> {
    FindFrom(s, p, 0)
  }

  /** Python's `p in s`. */
  predicate Contains(s: string, p: string) {
    Find(s, p).Some?
  }

  lemma ContainsIff(s: string, p: string)
    ensures Contains(s, p) <==> exists k: nat :: OccursAt(s, p, k)
  {
  }

  lemma OccursInsideSuffix(s: string, p: string, i: nat, j: nat)
    requires i <= |s| && OccursAt(s[i..], p, j)
    ensures OccursAt(s, p, i + j)
  {
    assert s[i..][j..j + |p|] == s[i + j..i + j + |p|];
  }

  lemma OccursInsidePrefix(s: string, p: string, i: nat, j: nat)
    requires i <= |s| && OccursAt(s[..i], p, j)
    ensures OccursAt(s, p, j)
  {
    assert s[..i][j..j + |p|] == s[j..j + |p|];
  }

  // ------------------------------------------------------- split and join

  /** `sep.join(parts)`. */
  function Join(parts: seq<string>, sep: string): string {
    if parts == [] then ""
    else if |parts| == 1 then parts[0]
    else parts[0] + sep + Join(parts[1..], sep)
  }

  /** `s.split(sep)` for a non-empty separator. */
  function Split(s: string, sep: string): (parts: seq<string>)
    requires sep != []
    decreases |s|
    ensures |parts| >= 1
  {
    match Find(s, sep)
    case None => [s]
    case Some(i) => [s[..i]] + Split(s[i + |sep|..], sep)
  }

  /** The first field of a split is the text before the first separator. */
  lemma SplitHead(s: string, sep: string)
    requires sep != []
    ensures Find(s, sep).None? ==> Split(s, sep) == [s]
    ensures Find(s, sep).Some? ==> Split(s, sep)[0] == s[..Find(s, sep).value]
    ensures !Contains(Split(s, sep)[0], sep)
  {
    match Find(s, sep)
    case None =>
    case Some(i) =>
      var h := s[..i];
      if Contains(h, sep) {
        var j := Find(h, sep).value;
        OccursInsidePrefix(s, sep, i, j);
      }
  }

  /** Splitting and joining again gives back the original text. */
  lemma {:induction false} JoinSplit(s: string, sep: string)
    requires sep != []
    ensures Join(Split(s, sep), sep) == s
    decreases |s|
  {
    match Find(s, sep)
    case None =>
    case Some(i) =>
      var rest := s[i + |sep|..];
      var tail := Split(rest, sep);
      JoinSplit(rest, sep);
      var parts := [s[..i]] + tail;
      assert Split(s, sep) == parts;
      assert parts[1..] == tail;
      assert Join(parts, sep) == s[..i] + sep + Join(tail, sep);
      assert s == s[..i] + sep + rest;
  }

  lemma FindIs(s: string, p: string, i: nat)
    requires OccursAt(s, p, i)
    requires forall k :: 0 <= k < i ==> !OccursAt(s, p, k)
    ensures Find(s, p) == Some(i)
  {
  }

  lemma FindAbsent(s: string, c: char)
    requires c !in s
    ensures Find(s, [c]) == None
  {
    forall k: nat | k < |s| ensures !OccursAt(s, [c], k) {
      assert s[k..k + 1][0] == s[k] != c;
    }
  }

  /** Joining texts free of a one-character separator and splitting again
      gives back the same texts. */
  lemma {:induction false} SplitJoin(parts: seq<string>, c: char)
    requires |parts| >= 1
    requires forall k :: 0 <= k < |parts| ==> c !in parts[k]
    ensures Split(Join(parts, [c]), [c]) == parts
    decreases |parts|
  {
    if |parts| == 1 {
      FindAbsent(parts[0], c);
    } else {
      var h, rest := parts[0], parts[1..];
      var tail := Join(rest, [c]);
      var s := Join(parts, [c]);
      assert s == h + [c] + tail;
      assert s[|h|..|h| + 1] == [c];
      forall k | 0 <= k < |h| ensures !OccursAt(s, [c], k) {
        assert s[k] == h[k];
      }
      FindIs(s, [c], |h|);
      assert s[..|h|] == h;
      assert s[|h| + 1..] == tail;
      SplitJoin(rest, c);
      assert Split(s, [c]) == [h] + rest;
    }
  }

  /** Splitting on a one-character separator yields one more field than
      there are separators in the text. */
  lemma {:induction false} SplitCount(s: string, c: char)
    ensures |Split(s, [c])| == multiset(s)[c] + 1
    decreases |s|
  {
    match Find(s, [c])
    case None =>
      FindCharNone(s, c);
    case Some(i) =>
      FindCharSome(s, c);
      var h, rest := s[..i], s[i + 1..];
      assert s == h + [c] + rest;
      SplitCount(rest, c);
      assert multiset(s) == multiset(h) + multiset{c} + multiset(rest);
  }

  lemma FindCharNone(s: string, c: char)
    requires Find(s, [c]).None?
    ensures c !in s
  {
    if c in s {
      var k :| 0 <= k < |s| && s[k] == c;
      assert s[k..k + 1] == [c];
      assert OccursAt(s, [c], k);
    }
  }

  lemma FindCharSome(s: string, c: char)
    requires Find(s, [c]).Some?
    ensures var i := Find(s, [c]).value; i < |s| && s[i] == c && c !in s[..i]
  {
    var i := Find(s, [c]).value;
    assert OccursAt(s, [c], i);
    assert s[i..i + 1][0] == s[i];
    if c in s[..i] {
      var k :| 0 <= k < i && s[..i][k] == c;
      assert s[k..k + 1] == [c];
      assert OccursAt(s, [c], k);
    }
  }

  // ------------------------------------------------------------- numbers

  predicate IsDigit(c: char) { '0' <= c <= '9' }

  function DigitValue(c: char): nat requires IsDigit(c) { c as int - '0' as int }

  function DigitChar(d: nat): char requires d < 10 { ('0' as int + d) as char }

  /** `str(n)` for a natural number: decimal digits, no leading zero. */
  function NatToString(n: nat): (r: string)
    decreases n
    ensures |r| >= 1
    ensures forall i :: 0 <= i < |r| ==> IsDigit(r[i])
    ensures |r| > 1 ==> r[0] != '0'
  {
    if n < 10 then [DigitChar(n)] else NatToString(n / 10) + [DigitChar(n % 10)]
  }

  /** `str(i)` for any integer. */
  function IntToString(i: int): string {
    if i < 0 then "-" + NatToString(-i) else NatToString(i)
  }

  /** The value of a run of digits and underscores, underscores ignored. */
  function DigitsValue(b: string): nat
    requires forall i :: 0 <= i < |b| ==> IsDigit(b[i]) || b[i] == '_'
  {
    if b == [] then 0
    else if b[|b| - 1] == '_' then DigitsValue(b[..|b| - 1])
    else 10 * DigitsValue(b[..|b| - 1]) + DigitValue(b[|b| - 1])
  }

  /** The body of an integer literal accepted by Python's `int()`:
      digits, with single underscores allowed between two digits. */
  predicate IsDigitBody(b: string) {
    && |b| >= 1
    && IsDigit(b[0]) && IsDigit(b[|b| - 1])
    && (forall i :: 0 <= i < |b| ==> IsDigit(b[i]) || b[i] == '_')
    && (forall i :: 0 <= i < |b| - 1 && b[i] == '_' ==> b[i + 1] != '_')
  }

  /** The ASCII characters `str.isspace` accepts: space, `\t` to `\r`, and
      the separators `\x1c` to `\x1f`. */
  predicate IsSpace(c: char) {
    || c == ' ' || 9 as char <= c <= 13 as char || 28 as char <= c <= 31 as char
  }

  function StripLeft(s: string): (r: string)
    ensures |r| <= |s| && r == s[|s| - |r|..]
    ensures r != [] ==> !IsSpace(r[0])
  {
    if s != [] && IsSpace(s[0]) then StripLeft(s[1..]) else s
  }

  function StripRight(s: string): (r: string)
    ensures |r| <= |s| && r == s[..|r|]
    ensures r != [] ==> !IsSpace(r[|r| - 1])
  {
    if s != [] && IsSpace(s[|s| - 1]) then StripRight(s[..|s| - 1]) else s
  }

  /** `s.strip()` with ASCII whitespace. */
  function Strip(s: string): string {
    StripRight(StripLeft(s))
  }

  /** Python's `int(s)` on a string: `None` stands for the `ValueError`. */
  function ParseInt(s: string): Option<int> {
    var t := Strip(s);
    if t != [] && (t[0] == '-' || t[0] == '+') then
      if IsDigitBody(t[1..]) then
        var v: int := DigitsValue(t[1..]);
        Some(if t[0] == '-' then -v else v)
      else None
    else if IsDigitBody(t) then Some(DigitsValue(t))
    else None
  }

  lemma {:induction false} NatToStringValue(n: nat)
    ensures DigitsValue(NatToString(n)) == n
    decreases n
  {
    var r := NatToString(n);
    if n >= 10 {
      NatToStringValue(n / 10);
      assert r[..|r| - 1] == NatToString(n / 10);
    }
  }

  lemma StripDigits(r: string)
    requires |r| >= 1 && !IsSpace(r[0]) && !IsSpace(r[|r| - 1])
    ensures Strip(r) == r
  {
    assert StripLeft(r) == r;
  }

  /** An unsigned literal parses to the value of its digits. */
  lemma ParseDigitBody(t: string)
    requires IsDigitBody(t)
    ensures ParseInt(t) == Some(DigitsValue(t))
  {
    StripDigits(t);
  }

  /** `int(str(n)) == n`: rendering a number and parsing it back is the identity. */
  lemma ParseNatToString(n: nat)
    ensures ParseInt(NatToString(n)) == Some(n)
  {
    var r := NatToString(n);
    assert IsDigitBody(r);
    ParseDigitBody(r);
    NatToStringValue(n);
  }

  /** `int(str(i)) == i` for negative numbers too. */
  lemma ParseIntToString(i: int)
    ensures ParseInt(IntToString(i)) == Some(i)
  {
    if i < 0 {
      var r := NatToString(-i);
      var t := "-" + r;
      assert t[1..] == r;
      assert IsDigit(r[|r| - 1]) && t[|t| - 1] == r[|r| - 1];
      StripDigits(t);
      assert IsDigitBody(r);
      NatToStringValue(-i);
    } else {
      ParseNatToString(i);
    }
  }

  /** `"".join(parts)`. */
  function Concat(parts: seq<string>): string {
    if parts == [] then "" else parts[0] + Concat(parts[1..])
  }

  // ---------------------------------------------------------- list helpers

  predicate NoDup<T(==,!new)>(xs: seq<T>) {
    forall i, j :: 0 <= i < j < |xs| ==> xs[i] != xs[j]
  }

  /** `if x not in xs: xs.append(x)`: append only when absent. */
  function AddIfAbsent<T(==,!new)>(xs: seq<T>, x: T): (r: seq<T>)
    ensures x in r
    ensures forall y :: y in r <==> y in xs || y == x
    ensures NoDup(xs) ==> NoDup(r)
  {
    if x in xs then xs else xs + [x]
  }

  /** `list.remove(x)`: the first occurrence goes. */
  function RemoveFirst<T(==,!new)>(xs: seq<T>, x: T): (r: seq<T>)
    requires x in xs
    ensures |r| == |xs| - 1
  {
    if xs[0] == x then xs[1..] else [xs[0]] + RemoveFirst(xs[1..], x)
  }

  /** `if x in xs: xs.remove(x)`: remove when present. */
  function RemoveIfPresent<T(==,!new)>(xs: seq<T>, x: T): seq<T> {
    if x in xs then RemoveFirst(xs, x) else xs
  }

  lemma AddIfAbsentIdempotent<T(!new)>(xs: seq<T>, x: T)
    ensures AddIfAbsent(AddIfAbsent(xs, x), x) == AddIfAbsent(xs, x)
  {
  }

  /** Removing from a list without duplicates removes the value entirely and
      keeps everything else. */
  lemma {:induction false} RemoveFirstSpec<T(!new)>(xs: seq<T>, x: T)
    requires x in xs && NoDup(xs)
    ensures x !in RemoveFirst(xs, x) && NoDup(RemoveFirst(xs, x))
    ensures forall y :: y != x ==> (y in RemoveFirst(xs, x) <==> y in xs)
  {
    if xs[0] != x {
      assert forall i :: 0 < i < |xs| ==> xs[i] == xs[1..][i - 1];
      RemoveFirstSpec(xs[1..], x);
      var r := RemoveFirst(xs[1..], x);
      assert xs[0] !in r by {
        assert xs[0] !in xs[1..];
      }
    } else {
      assert x !in xs[1..] by {
        forall i | 0 <= i < |xs[1..]| ensures xs[1..][i] != x {
          assert xs[1..][i] == xs[i + 1];
        }
      }
    }
  }

  /** Adding and then removing a value that was absent restores the list;
      after the removal the value is absent. */
  lemma BlockThenUnblock<T(!new)>(xs: seq<T>, x: T)
    requires NoDup(xs)
    ensures x !in xs ==> RemoveIfPresent(AddIfAbsent(xs, x), x) == xs
    ensures x !in RemoveIfPresent(AddIfAbsent(xs, x), x)
  {
    var ys := AddIfAbsent(xs, x);
    RemoveFirstSpec(ys, x);
    if x !in xs {
      RemoveLast(xs, x);
    }
  }

  lemma {:induction false} RemoveLast<T(!new)>(xs: seq<T>, x: T)
    requires x !in xs
    ensures RemoveFirst(xs + [x], x) == xs
  {
    if xs != [] {
      assert (xs + [x])[1..] == xs[1..] + [x];
      RemoveLast(xs[1..], x);
    }
  }
}
