/** The reminder duration of `remind` and the role list of `user`
    (cogs/utils.py). */
module Utils {
  import opened PyText

  // ----------------------------------------------------------- durations

  /** The number of ASCII digits `s` starts with. */
  function LeadingDigits(s: string): (k: nat)
    ensures k <= |s|
    ensures forall i :: 0 <= i < k ==> IsDigit(s[i])
    ensures k < |s| ==> !IsDigit(s[k])
  {
    if s != [] && IsDigit(s[0]) then 1 + LeadingDigits(s[1..]) else 0
  }

  /** One optional group `(?:(\d+)u)?` of the pattern, tried at the start of
      `s`: the greedy digit run must be followed by the unit letter, else
      the group is skipped and nothing is consumed. */
  function UnitGroup(s: string, unit: char): (r: (Option<string>, string))
    ensures r.0.None? ==> r.1 == s
    ensures r.0.Some? ==>
      && |r.0.value| >= 1
      && (forall i :: 0 <= i < |r.0.value| ==> IsDigit(r.0.value[i]))
      && s == r.0.value + [unit] + r.1
  {
    var k := LeadingDigits(s);
    if 0 < k < |s| && s[k] == unit then
      assert s == s[..k] + [unit] + s[k + 1..];
      (Some(s[..k]), s[k + 1..])
    else (None, s)
  }

  /** The four groups of `(?:(\d+)d)?(?:(\d+)h)?(?:(\d+)m)?(?:(\d+)s)?`
      matched at the start of `s`. */
  datatype Groups = Groups(days: Option<string>, hours: Option<string>,
                           minutes: Option<string>, seconds: Option<string>)

  /** A captured group is a non-empty run of digits, so `int()` accepts it. */
  predicate DigitRun(g: Option<string>) {
    g.Some? ==> |g.value| >= 1 && forall i :: 0 <= i < |g.value| ==> IsDigit(g.value[i])
  }

  function MatchGroups(s: string): (r: Groups)
    ensures DigitRun(r.days) && DigitRun(r.hours) && DigitRun(r.minutes) && DigitRun(r.seconds)
    ensures r.days.Some? ==> StartsWith(s, r.days.value + "d")
  {
    var (d, r1) := UnitGroup(s, 'd');
    var (h, r2) := UnitGroup(r1, 'h');
    var (m, r3) := UnitGroup(r2, 'm');
    var (sec, _) := UnitGroup(r3, 's');
    Groups(d, h, m, sec)
  }

  /** `int(group or 0)`. */
  function GroupValue(g: Option<string>): nat
    requires g.Some? ==> forall i :: 0 <= i < |g.value| ==> IsDigit(g.value[i])
  {
    if g.None? then 0 else DigitsValue(g.value)
  }

  const MaxReminder := 2592000

  datatype RemindReply = InvalidFormat | NotPositive | TooLong | Scheduled(total: nat, readable: string)

  /** The non-zero components, each with its unit, in d, h, m, s order. */
  function Parts(d: nat, h: nat, m: nat, s: nat): (r: seq<string>)
    ensures |r| <= 4
    ensures r == [] <==> d == 0 && h == 0 && m == 0 && s == 0
  {
    Part(d, 'd') + Part(h, 'h') + Part(m, 'm') + Part(s, 's')
  }

  /** `f"{n}{unit}"` when `n` is non-zero. */
  function Part(n: nat, unit: char): (r: seq<string>)
    ensures |r| <= 1 && (r == [] <==> n == 0)
  {
    if n != 0 then [NatToString(n) + [unit]] else []
  }

  /** The total number of seconds of a duration. */
  function Seconds(d: nat, h: nat, m: nat, s: nat): (r: nat)
    ensures r == 0 <==> d == 0 && h == 0 && m == 0 && s == 0
    ensures d * 86400 <= r && h * 3600 <= r && m * 60 <= r && s <= r
  {
    d * 86400 + h * 3600 + m * 60 + s
  }

  /** `remind_command` up to the confirmation: the reply and, when the
      reminder is scheduled, its delay in seconds and the echoed duration. */
  function Remind(time: string): (r: RemindReply)
    ensures r.Scheduled? ==> 0 < r.total <= MaxReminder
  {
    RemindLowered(Lower(time))
  }

  function RemindLowered(t: string): (r: RemindReply)
    ensures r.Scheduled? ==> 0 < r.total <= MaxReminder
  {
    var g := MatchGroups(t);
    if g.days.None? && g.hours.None? && g.minutes.None? && g.seconds.None? then InvalidFormat
    else
      var d, h, m, s := GroupValue(g.days), GroupValue(g.hours), GroupValue(g.minutes), GroupValue(g.seconds);
      var total := Seconds(d, h, m, s);
      if total <= 0 then NotPositive
      else if total > MaxReminder then TooLong
      else Scheduled(total, Join(Parts(d, h, m, s), " "))
  }

  lemma {:induction false} LeadingDigitsOf(x: string, c: char, rest: string)
    requires forall i :: 0 <= i < |x| ==> IsDigit(x[i])
    requires !IsDigit(c)
    ensures LeadingDigits(x + [c] + rest) == |x|
  {
    if x != [] {
      assert (x + [c] + rest)[1..] == x[1..] + [c] + rest;
      LeadingDigitsOf(x[1..], c, rest);
    }
  }

  /** A group meets `n` followed by letter `c`: it captures the digits when
      `c` is its unit and is skipped otherwise. */
  lemma UnitGroupOn(n: nat, c: char, rest: string, unit: char)
    requires !IsDigit(c) && !IsDigit(unit)
    ensures UnitGroup(NatToString(n) + [c] + rest, unit)
         == if c == unit then (Some(NatToString(n)), rest) else (None, NatToString(n) + [c] + rest)
  {
    var x := NatToString(n);
    var s := x + [c] + rest;
    LeadingDigitsOf(x, c, rest);
    assert s[|x|] == c;
    assert s[..|x|] == x;
    assert s[|x| + 1..] == rest;
  }

  lemma UnitGroupEmpty(unit: char)
    ensures UnitGroup("", unit) == (None, "")
  {
  }

  /** The group for `unit` applied to the compact form of later components
      skips them. */
  lemma UnitGroupSkips(p: nat, cp: char, later: string, unit: char)
    requires cp != unit && !IsDigit(cp) && !IsDigit(unit)
    ensures UnitGroup(NatToString(p) + [cp] + later, unit) == (None, NatToString(p) + [cp] + later)
  {
    UnitGroupOn(p, cp, later, unit);
  }

  function Piece(n: nat, c: char): string {
    if n != 0 then NatToString(n) + [c] else ""
  }

  lemma ConcatPart(n: nat, unit: char)
    ensures Concat(Part(n, unit)) == Piece(n, unit)
  {
    if n != 0 {
      assert Part(n, unit)[1..] == [];
    }
  }

  lemma ConcatParts(d: nat, h: nat, m: nat, s: nat)
    ensures Concat(Parts(d, h, m, s)) == Piece(d, 'd') + Piece(h, 'h') + Piece(m, 'm') + Piece(s, 's')
  {
    var a, b, c, e := Part(d, 'd'), Part(h, 'h'), Part(m, 'm'), Part(s, 's');
    assert Parts(d, h, m, s) == (a + b) + (c + e);
    ConcatAppend(a + b, c + e);
    ConcatTwo(d, 'd', h, 'h');
    ConcatTwo(m, 'm', s, 's');
  }

  lemma ConcatTwo(x: nat, cx: char, y: nat, cy: char)
    ensures Concat(Part(x, cx) + Part(y, cy)) == Piece(x, cx) + Piece(y, cy)
  {
    ConcatAppend(Part(x, cx), Part(y, cy));
    ConcatPart(x, cx);
    ConcatPart(y, cy);
  }

  lemma {:induction false} ConcatAppend(a: seq<string>, b: seq<string>)
    ensures Concat(a + b) == Concat(a) + Concat(b)
  {
    if a == [] {
      assert a + b == b;
    } else {
      assert (a + b)[1..] == a[1..] + b;
      ConcatAppend(a[1..], b);
    }
  }

  /** The group for `unit` at the start of the pieces of the later
      components: `None`, and nothing consumed, since each of them carries
      a different letter. */
  lemma SkipLater(unit: char, h: nat, ch: char, m: nat, cm: char, s: nat, cs: char)
    requires !IsDigit(unit) && !IsDigit(ch) && !IsDigit(cm) && !IsDigit(cs)
    requires unit != ch && unit != cm && unit != cs
    ensures UnitGroup(Piece(h, ch) + Piece(m, cm) + Piece(s, cs), unit)
         == (None, Piece(h, ch) + Piece(m, cm) + Piece(s, cs))
  {
    var rest := Piece(m, cm) + Piece(s, cs);
    assert Piece(h, ch) + Piece(m, cm) + Piece(s, cs) == Piece(h, ch) + rest;
    if h != 0 {
      SkipPiece(h, ch, rest, unit);
    } else {
      assert Piece(h, ch) + rest == rest;
      SkipRest(unit, m, cm, s, cs);
    }
  }

  lemma SkipRest(unit: char, m: nat, cm: char, s: nat, cs: char)
    requires !IsDigit(unit) && !IsDigit(cm) && !IsDigit(cs)
    requires unit != cm && unit != cs
    ensures UnitGroup(Piece(m, cm) + Piece(s, cs), unit) == (None, Piece(m, cm) + Piece(s, cs))
  {
    if m != 0 {
      SkipPiece(m, cm, Piece(s, cs), unit);
    } else if s != 0 {
      assert Piece(m, cm) + Piece(s, cs) == Piece(s, cs) + "";
      SkipPiece(s, cs, "", unit);
    } else {
      assert Piece(m, cm) + Piece(s, cs) == "";
    }
  }

  lemma SkipPiece(n: nat, c: char, later: string, unit: char)
    requires n != 0 && c != unit && !IsDigit(c) && !IsDigit(unit)
    ensures UnitGroup(Piece(n, c) + later, unit) == (None, Piece(n, c) + later)
  {
    assert Piece(n, c) + later == NatToString(n) + [c] + later;
    UnitGroupSkips(n, c, later, unit);
  }

  /** The group for `unit` at the start of `Piece(n, unit) + later`. */
  lemma TakePiece(n: nat, unit: char, later: string)
    requires !IsDigit(unit)
    requires n == 0 ==> UnitGroup(later, unit) == (None, later)
    ensures UnitGroup(Piece(n, unit) + later, unit)
         == if n != 0 then (Some(NatToString(n)), later) else (None, later)
  {
    if n != 0 {
      assert Piece(n, unit) + later == NatToString(n) + [unit] + later;
      UnitGroupOn(n, unit, later, unit);
    } else {
      assert Piece(n, unit) + later == later;
    }
  }

  lemma LowerCompact(t: string)
    requires forall i :: 0 <= i < |t| ==> IsDigit(t[i]) || t[i] in "dhms"
    ensures Lower(t) == t
  {
  }

  /** The group captured for a component: its digits, or nothing for zero. */
  function Captured(n: nat): (g: Option<string>)
    ensures g.Some? ==> forall i :: 0 <= i < |g.value| ==> IsDigit(g.value[i])
    ensures GroupValue(g) == n
  {
    NatToStringValue(n);
    if n != 0 then Some(NatToString(n)) else None
  }

  lemma DaysGroup(d: nat, h: nat, m: nat, s: nat)
    ensures UnitGroup(Piece(d, 'd') + Piece(h, 'h') + Piece(m, 'm') + Piece(s, 's'), 'd')
         == (Captured(d), Piece(h, 'h') + Piece(m, 'm') + Piece(s, 's'))
  {
    var r1 := Piece(h, 'h') + Piece(m, 'm') + Piece(s, 's');
    assert Piece(d, 'd') + Piece(h, 'h') + Piece(m, 'm') + Piece(s, 's') == Piece(d, 'd') + r1;
    SkipLater('d', h, 'h', m, 'm', s, 's');
    TakePiece(d, 'd', r1);
  }

  lemma HoursGroup(h: nat, m: nat, s: nat)
    ensures UnitGroup(Piece(h, 'h') + Piece(m, 'm') + Piece(s, 's'), 'h')
         == (Captured(h), Piece(m, 'm') + Piece(s, 's'))
  {
    var r2 := Piece(m, 'm') + Piece(s, 's');
    assert Piece(h, 'h') + Piece(m, 'm') + Piece(s, 's') == Piece(h, 'h') + r2;
    SkipLater('h', m, 'm', s, 's', 0, 'd');
    assert Piece(m, 'm') + Piece(s, 's') + Piece(0, 'd') == r2;
    TakePiece(h, 'h', r2);
  }

  lemma MinutesGroup(m: nat, s: nat)
    ensures UnitGroup(Piece(m, 'm') + Piece(s, 's'), 'm') == (Captured(m), Piece(s, 's'))
  {
    SkipLater('m', s, 's', 0, 'd', 0, 'h');
    assert Piece(s, 's') + Piece(0, 'd') + Piece(0, 'h') == Piece(s, 's');
    TakePiece(m, 'm', Piece(s, 's'));
  }

  lemma SecondsGroup(s: nat)
    ensures UnitGroup(Piece(s, 's'), 's') == (Captured(s), "")
  {
    assert Piece(s, 's') == Piece(s, 's') + "";
    TakePiece(s, 's', "");
  }

  /** The groups read back the components of a compact duration: a zero
      component is an absent group, the others are captured. */
  lemma MatchCompact(d: nat, h: nat, m: nat, s: nat)
    ensures MatchGroups(Concat(Parts(d, h, m, s))) == Groups(Captured(d), Captured(h), Captured(m), Captured(s))
  {
    ConcatParts(d, h, m, s);
    DaysGroup(d, h, m, s);
    HoursGroup(h, m, s);
    MinutesGroup(m, s);
    SecondsGroup(s);
  }

  lemma {:induction false} ConcatCompactChars(parts: seq<string>)
    requires forall k :: 0 <= k < |parts| ==>
      forall i :: 0 <= i < |parts[k]| ==> IsDigit(parts[k][i]) || parts[k][i] in "dhms"
    ensures forall i :: 0 <= i < |Concat(parts)| ==> IsDigit(Concat(parts)[i]) || Concat(parts)[i] in "dhms"
  {
    if parts != [] {
      ConcatCompactChars(parts[1..]);
      var t := Concat(parts);
      assert t == parts[0] + Concat(parts[1..]);
      forall i | 0 <= i < |t| ensures IsDigit(t[i]) || t[i] in "dhms" {
        if i < |parts[0]| {
          assert t[i] == parts[0][i];
        } else {
          assert t[i] == Concat(parts[1..])[i - |parts[0]|];
        }
      }
    }
  }

  /** Typing a duration in its compact form (`1d12h30m`, letters in either
      case) schedules exactly `d*86400 + h*3600 + m*60 + s` seconds and echoes
      the non-zero components separated by single spaces; an all-zero or an
      over-long duration is refused. */
  lemma RemindCompact(d: nat, h: nat, m: nat, s: nat)
    ensures var t := Concat(Parts(d, h, m, s));
      var total := Seconds(d, h, m, s);
      Remind(t) == if total == 0 then InvalidFormat
                   else if total > MaxReminder then TooLong
                   else Scheduled(total, Join(Parts(d, h, m, s), " "))
  {
    var parts := Parts(d, h, m, s);
    var t := Concat(parts);
    forall k | 0 <= k < |parts|
      ensures forall i :: 0 <= i < |parts[k]| ==> IsDigit(parts[k][i]) || parts[k][i] in "dhms"
    {
    }
    ConcatCompactChars(parts);
    LowerCompact(t);
    MatchCompact(d, h, m, s);
    assert Remind(t) == RemindLowered(t);
  }

  /** Python lowercases the input, so the letters' case never matters. */
  lemma RemindIgnoresCase(time: string)
    ensures Remind(time) == Remind(Lower(time))
  {
    LowerIdempotent(time);
  }

  /** The echo splits back, at its single spaces, into the components. */
  lemma ReadableSplits(d: nat, h: nat, m: nat, s: nat)
    requires Parts(d, h, m, s) != []
    ensures Split(Join(Parts(d, h, m, s), " "), " ") == Parts(d, h, m, s)
  {
    var parts := Parts(d, h, m, s);
    forall k | 0 <= k < |parts| ensures ' ' !in parts[k] {
      assert forall i :: 0 <= i < |parts[k]| ==> IsDigit(parts[k][i]) || parts[k][i] in "dhms";
    }
    SplitJoin(parts, ' ');
  }

  /** Groups must come in d, h, m, s order: minutes followed by hours, as in
      `5m2h`, stop after the minutes and schedule only those; the hours are
      ignored. */
  lemma OutOfOrderStops(m: nat, h: nat)
    requires 0 < m <= MaxReminder / 60
    ensures Remind(NatToString(m) + ['m'] + NatToString(h) + ['h'])
         == Scheduled(m * 60, NatToString(m) + ['m'])
  {
    var t := NatToString(m) + ['m'] + NatToString(h) + ['h'];
    OutOfOrderChars(m, h);
    LowerCompact(t);
    OutOfOrderGroups(m, h);
    MinutesOnly(t, m);
  }

  lemma OutOfOrderChars(m: nat, h: nat)
    ensures var t := NatToString(m) + ['m'] + NatToString(h) + ['h'];
      forall i :: 0 <= i < |t| ==> IsDigit(t[i]) || t[i] in "dhms"
  {
    var x, y := NatToString(m), NatToString(h);
    var t := x + ['m'] + y + ['h'];
    forall i | 0 <= i < |t| ensures IsDigit(t[i]) || t[i] in "dhms" {
      if i < |x| {
        assert t[i] == x[i];
      } else if i == |x| {
        assert t[i] == 'm';
      } else if i < |x| + 1 + |y| {
        assert t[i] == y[i - |x| - 1];
      } else {
        assert t[i] == 'h';
      }
    }
  }

  /** A text whose only group is the minutes schedules those minutes. */
  lemma MinutesOnly(t: string, m: nat)
    requires 0 < m <= MaxReminder / 60
    requires MatchGroups(t) == Groups(None, None, Some(NatToString(m)), None)
    ensures RemindLowered(t) == Scheduled(m * 60, NatToString(m) + ['m'])
  {
    NatToStringValue(m);
    assert Parts(0, 0, m, 0) == [NatToString(m) + ['m']];
  }

  lemma OutOfOrderGroups(m: nat, h: nat)
    ensures MatchGroups(NatToString(m) + ['m'] + NatToString(h) + ['h'])
         == Groups(None, None, Some(NatToString(m)), None)
  {
    var later := NatToString(h) + ['h'] + "";
    assert NatToString(m) + ['m'] + NatToString(h) + ['h'] == NatToString(m) + ['m'] + later;
    UnitGroupOn(m, 'm', later, 'd');
    UnitGroupOn(m, 'm', later, 'h');
    UnitGroupOn(m, 'm', later, 'm');
    UnitGroupOn(h, 'h', "", 's');
  }

  /** Zero seconds is a well-formed duration that is refused as not
      positive. */
  lemma ZeroIsNotPositive()
    ensures Remind("0s") == NotPositive
  {
    LowerCompact("0s");
    ZeroGroups();
    NatToStringValue(0);
  }

  lemma ZeroGroups()
    ensures MatchGroups("0s") == Groups(None, None, None, Some(NatToString(0)))
  {
    var t := NatToString(0) + ['s'] + "";
    assert t == "0s";
    UnitGroupOn(0, 's', "", 'd');
    UnitGroupOn(0, 's', "", 'h');
    UnitGroupOn(0, 's', "", 'm');
    UnitGroupOn(0, 's', "", 's');
  }

  /** Thirty days is the longest duration accepted, one second more is
      refused. */
  lemma ThirtyDaysIsTheLimit()
    ensures Seconds(30, 0, 0, 0) == MaxReminder
    ensures Remind(Concat(Parts(30, 0, 0, 0))) == Scheduled(MaxReminder, Join(Parts(30, 0, 0, 0), " "))
    ensures Remind(Concat(Parts(30, 0, 0, 1))) == TooLong
  {
    RemindCompact(30, 0, 0, 0);
    RemindCompact(30, 0, 0, 1);
  }

  /** Text that starts with no group at all is not a duration. */
  lemma RemindNeedsAGroup(time: string)
    requires time != [] && !IsDigit(time[0])
    ensures Remind(time) == InvalidFormat
  {
    var t := Lower(time);
    assert !IsDigit(t[0]);
    assert LeadingDigits(t) == 0;
  }

  // ---------------------------------------------------------------- roles

  const MaxShownRoles := 10

  /** The value of the roles field of `user`: all role mentions when there
      are at most ten, otherwise the first ten and " и ещё N". */
  function RolesValue(roles: seq<string>): string {
    if |roles| <= MaxShownRoles then Join(roles, " ")
    else Join(roles[..MaxShownRoles], " ") + " и ещё " + NatToString(|roles| - MaxShownRoles)
  }

  lemma {:induction false} JoinAppend(a: seq<string>, b: seq<string>, sep: string)
    requires a != [] && b != []
    ensures Join(a + b, sep) == Join(a, sep) + sep + Join(b, sep)
  {
    if |a| == 1 {
      assert (a + b)[1..] == b;
    } else {
      assert (a + b)[1..] == a[1..] + b;
      JoinAppend(a[1..], b, sep);
    }
  }

  lemma JoinThree(x: string, y: string, z: string, sep: string)
    ensures Join([x, y, z], sep) == x + sep + y + sep + z
  {
    var t := [x, y, z];
    assert t[1..] == [y, z] && t[1..][1..] == [z];
    assert Join([y, z], sep) == y + sep + z;
  }

  lemma MoreRolesWords(shown: string, n: string)
    ensures shown + " " + Join(["и", "ещё", n], " ") == shown + " и ещё " + n
  {
    JoinThree("и", "ещё", n, " ");
    assert " " + ("и" + " " + "ещё" + " " + n) == " и ещё " + n;
  }

  /** Past ten roles the field is the first ten and three more words. */
  lemma RolesValueWords(roles: seq<string>)
    requires |roles| > MaxShownRoles
    ensures RolesValue(roles)
         == Join(roles[..MaxShownRoles] + ["и", "ещё", NatToString(|roles| - MaxShownRoles)], " ")
  {
    var n := NatToString(|roles| - MaxShownRoles);
    JoinAppend(roles[..MaxShownRoles], ["и", "ещё", n], " ");
    MoreRolesWords(Join(roles[..MaxShownRoles], " "), n);
  }

  lemma NoSpaceInNumber(n: nat)
    ensures ' ' !in NatToString(n)
  {
    var r := NatToString(n);
    assert forall i :: 0 <= i < |r| ==> IsDigit(r[i]);
  }

  /** Read back at its spaces (mentions carry none), the roles field lists
      the first ten roles and, past ten, the words "и ещё" and the number of
      roles left out, which parses back to the count minus ten. */
  lemma RolesValueReadBack(roles: seq<string>)
    requires roles != []
    requires forall k :: 0 <= k < |roles| ==> ' ' !in roles[k]
    ensures |roles| <= MaxShownRoles ==> Split(RolesValue(roles), " ") == roles
    ensures |roles| > MaxShownRoles ==>
      var fields := Split(RolesValue(roles), " ");
      && |fields| == MaxShownRoles + 3
      && fields[..MaxShownRoles] == roles[..MaxShownRoles]
      && fields[MaxShownRoles + 1] == "ещё"
      && ParseInt(fields[MaxShownRoles + 2]) == Some(|roles| - MaxShownRoles)
  {
    if |roles| <= MaxShownRoles {
      SplitJoin(roles, ' ');
    } else {
      RolesManyReadBack(roles);
    }
  }

  lemma RolesManyReadBack(roles: seq<string>)
    requires |roles| > MaxShownRoles
    requires forall k :: 0 <= k < |roles| ==> ' ' !in roles[k]
    ensures var fields := Split(RolesValue(roles), " ");
      && |fields| == MaxShownRoles + 3
      && fields[..MaxShownRoles] == roles[..MaxShownRoles]
      && fields[MaxShownRoles + 1] == "ещё"
      && ParseInt(fields[MaxShownRoles + 2]) == Some(|roles| - MaxShownRoles)
  {
    RolesValueSplits(roles);
    WordsAfterShown(Split(RolesValue(roles), " "), roles[..MaxShownRoles], |roles| - MaxShownRoles);
  }

  lemma WordsAfterShown(fields: seq<string>, shown: seq<string>, more: nat)
    requires fields == shown + ["и", "ещё", NatToString(more)]
    ensures && |fields| == |shown| + 3
            && fields[..|shown|] == shown
            && fields[|shown| + 1] == "ещё"
            && ParseInt(fields[|shown| + 2]) == Some(more)
  {
    assert fields[..|shown|] == shown;
    assert fields[|shown| + 2] == NatToString(more);
    ParseNatToString(more);
  }

  lemma RolesValueSplits(roles: seq<string>)
    requires |roles| > MaxShownRoles
    requires forall k :: 0 <= k < |roles| ==> ' ' !in roles[k]
    ensures Split(RolesValue(roles), " ")
         == roles[..MaxShownRoles] + ["и", "ещё", NatToString(|roles| - MaxShownRoles)]
  {
    var n := NatToString(|roles| - MaxShownRoles);
    RolesValueWords(roles);
    NoSpaceInNumber(|roles| - MaxShownRoles);
    ShownWordsNoSpace(roles[..MaxShownRoles], n);
    SplitJoin(roles[..MaxShownRoles] + ["и", "ещё", n], ' ');
  }

  lemma ShownWordsNoSpace(shown: seq<string>, n: string)
    requires forall k :: 0 <= k < |shown| ==> ' ' !in shown[k]
    requires ' ' !in n
    ensures var words := shown + ["и", "ещё", n];
      forall k :: 0 <= k < |words| ==> ' ' !in words[k]
  {
    var words := shown + ["и", "ещё", n];
    forall k | 0 <= k < |words| ensures ' ' !in words[k] {
      if k < |shown| {
        assert words[k] == shown[k];
      } else if k == |shown| {
        assert words[k] == "и";
      } else if k == |shown| + 1 {
        assert words[k] == "ещё";
      } else {
        assert words[k] == n;
      }
    }
  }
}
