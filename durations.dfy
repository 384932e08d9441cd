/** `formatDuration`: renders the hour and minute designators of an ISO 8601
    duration (ISO 8601:2004 section 4.4.3.2, format with designators, as
    `PT<h>H<m>M`) as `"<h>h <m>m"`, with the pattern `/PT(\d+H)?(\d+M)?/`
    read the way a backtracking regular-expression engine reads it. */
module Durations {
  import opened Wrappers
  import opened Text

  /** The first position of `"PT"` in `s`, where the unanchored match starts. */
  function FindPT(s: string, from: nat): (r: Option<nat>)
    requires from <= |s|
    ensures r.Some? ==> from <= r.value && r.value + 1 < |s| && s[r.value] == 'P' && s[r.value + 1] == 'T'
    ensures forall k :: from <= k && (r.None? || k < r.value) && k + 1 < |s| ==> !(s[k] == 'P' && s[k + 1] == 'T')
    decreases |s| - from
  {
    if from + 1 >= |s| then None
    else if s[from] == 'P' && s[from + 1] == 'T' then Some(from)
    else FindPT(s, from + 1)
  }

  /** The end of the maximal run of decimal digits starting at `p` (`\d+` is greedy). */
  function RunEnd(s: string, p: nat): (q: nat)
    requires p <= |s|
    ensures p <= q <= |s|
    ensures AllDigits(s[p..q])
    ensures q == |s| || !IsDigit(s[q])
    decreases |s| - p
  {
    if p < |s| && IsDigit(s[p]) then
      var q := RunEnd(s, p + 1);
      assert s[p..q] == [s[p]] + s[p + 1..q];
      q
    else p
  }

  /** A group `(\d+X)` at `p`: the value of its digits and the position after `X`. */
  datatype Group = Group(value: nat, end: nat)

  function MatchGroup(s: string, p: nat, designator: char): (g: Option<Group>)
    requires p <= |s|
    ensures g.Some? ==> p < g.value.end <= |s| && s[g.value.end - 1] == designator
  {
    var q := RunEnd(s, p);
    if q > p && q < |s| && s[q] == designator then Some(Group(DigitsValue(s[p..q]), q + 1))
    else None
  }

  function GroupValue(g: Option<Group>): nat
  {
    if g.Some? then g.value.value else 0
  }

  /** The values of the hours and minutes groups of the match that starts
      at `p`; an absent group counts as 0 (`match[1] ? parseInt(match[1]) : 0`). */
  function Parts(s: string, p: nat): (nat, nat)
    requires p + 2 <= |s|
  {
    var hoursGroup := MatchGroup(s, p + 2, 'H');
    var minutesFrom := if hoursGroup.Some? then hoursGroup.value.end else p + 2;
    (GroupValue(hoursGroup), GroupValue(MatchGroup(s, minutesFrom, 'M')))
  }

  /** No character of the text is a `P`. */
  predicate NoP(r: string)
  {
    forall k :: 0 <= k < |r| ==> r[k] != 'P'
  }

  /** A text without a `P` differs from any text that has one. */
  lemma NoPDiffers(r: string, s: string, p: nat)
    requires NoP(r)
    requires p < |s| && s[p] == 'P'
    ensures r != s
  {
    assert p < |r| ==> r[p] != 'P';
  }

  /** The source's `formatDuration`. The input comes back unchanged exactly
      when the pattern finds no `PT`, or when both parts are 0 or absent
      (a 0 is falsy in the source's tests). */
  function FormatDuration(duration: string): (r: string)
    ensures FindPT(duration, 0).None? ==> r == duration
    ensures r == duration <==> FindPT(duration, 0).None? || Parts(duration, FindPT(duration, 0).value) == (0, 0)
  {
    match FindPT(duration, 0)
    case None => duration
    case Some(p) =>
      var (hours, minutes) := Parts(duration, p);
      var r :=
        if hours != 0 && minutes != 0 then NatToString(hours) + "h " + NatToString(minutes) + "m"
        else if hours != 0 then NatToString(hours) + "h"
        else if minutes != 0 then NatToString(minutes) + "m"
        else duration;
      assert (hours, minutes) != (0, 0) ==> r != duration by {
        if (hours, minutes) != (0, 0) {
          assert NoP(NatToString(hours)) && NoP(NatToString(minutes));
          NoPDiffers(r, duration, p);
        }
      }
      r
  }

  /** A digit run that ends before a non-digit is exactly what `RunEnd` finds. */
  lemma RunEndAt(s: string, p: nat, q: nat)
    requires p <= q <= |s|
    requires forall k :: p <= k < q ==> IsDigit(s[k])
    requires q == |s| || !IsDigit(s[q])
    ensures RunEnd(s, p) == q
    decreases q - p
  {
    if p < q {
      RunEndAt(s, p + 1, q);
    }
  }

  /** `n` rendered in decimal at `p`, followed by `designator`, is read back as `n`. */
  lemma {:induction false} GroupOfNumber(s: string, p: nat, n: nat, designator: char)
    requires !IsDigit(designator)
    requires p + |NatToString(n)| < |s|
    requires forall k :: 0 <= k < |NatToString(n)| ==> s[p + k] == NatToString(n)[k]
    requires s[p + |NatToString(n)|] == designator
    ensures MatchGroup(s, p, designator) == Some(Group(n, p + |NatToString(n)| + 1))
  {
    var digits := NatToString(n);
    var q := p + |digits|;
    forall k | p <= k < q ensures IsDigit(s[k]) {
      assert s[k] == digits[k - p];
    }
    RunEndAt(s, p, q);
    assert s[p..q] == digits;
    NatToStringRoundTrip(n);
  }

  /** A `PT` at `p` with none between `from` and `p` is the one `FindPT` finds. */
  lemma {:induction false} FindPTAt(s: string, from: nat, p: nat)
    requires from <= p && p + 1 < |s| && s[p] == 'P' && s[p + 1] == 'T'
    requires forall k :: from <= k < p ==> !(s[k] == 'P' && s[k + 1] == 'T')
    ensures FindPT(s, from) == Some(p)
    decreases p - from
  {
    if from < p {
      FindPTAt(s, from + 1, p);
    }
  }

  /** After a prefix without `PT`, a `PT` starts the match. */
  lemma FindPTAfter(s: string, prefix: string)
    requires FindPT(prefix, 0).None?
    requires |prefix| + 1 < |s| && s[|prefix|] == 'P' && s[|prefix| + 1] == 'T'
    requires forall k :: 0 <= k < |prefix| ==> s[k] == prefix[k]
    ensures FindPT(s, 0) == Some(|prefix|)
  {
    forall k | 0 <= k < |prefix| ensures !(s[k] == 'P' && s[k + 1] == 'T') {
      if k + 1 < |prefix| {
        assert s[k] == prefix[k] && s[k + 1] == prefix[k + 1];
      }
    }
    FindPTAt(s, 0, |prefix|);
  }

  /** A `PT` right after a prefix without one starts the match. */
  lemma PTAfter(prefix: string)
    requires FindPT(prefix, 0).None?
    ensures FindPT(prefix + "PT", 0) == Some(|prefix|)
  {
    FindPTAfter(prefix + "PT", prefix);
  }

  /** Text appended after a match does not move it. */
  lemma FindPTExtend(t: string, v: string)
    requires FindPT(t, 0).Some?
    ensures FindPT(t + v, 0) == FindPT(t, 0)
  {
    var p := FindPT(t, 0).value;
    forall k | 0 <= k < p ensures !((t + v)[k] == 'P' && (t + v)[k + 1] == 'T') {
      assert (t + v)[k] == t[k] && (t + v)[k + 1] == t[k + 1];
    }
    FindPTAt(t + v, 0, p);
  }

  /** The four outcomes of `formatDuration` for the parts `h` and `m` of a
      match in `s`. */
  function Rendering(h: nat, m: nat, s: string): string
  {
    if h != 0 && m != 0 then NatToString(h) + "h " + NatToString(m) + "m"
    else if h != 0 then NatToString(h) + "h"
    else if m != 0 then NatToString(m) + "m"
    else s
  }

  /** The result of a match depends only on its two parts. */
  lemma FormatOfParts(s: string, p: nat)
    requires FindPT(s, 0) == Some(p)
    ensures p + 2 <= |s|
    ensures FormatDuration(s) == Rendering(Parts(s, p).0, Parts(s, p).1, s)
  {
  }

  /** `PT<h>H<m>M`, wherever it first appears, becomes `"<h>h <m>m"`,
      `"<h>h"` or `"<m>m"` as the parts are non-zero, and the text is
      returned as it is when both are 0. */
  lemma {:induction false} FormatHoursAndMinutes(prefix: string, h: nat, m: nat, suffix: string)
    requires FindPT(prefix, 0).None?
    ensures var s := prefix + "PT" + NatToString(h) + "H" + NatToString(m) + "M" + suffix;
      FormatDuration(s) ==
        if h != 0 && m != 0 then NatToString(h) + "h " + NatToString(m) + "m"
        else if h != 0 then NatToString(h) + "h"
        else if m != 0 then NatToString(m) + "m"
        else s
  {
    var s := prefix + "PT" + NatToString(h) + "H" + NatToString(m) + "M" + suffix;
    PTBeforeGroups(prefix, NatToString(h), NatToString(m), suffix);
    PartsHoursAndMinutes(prefix, h, m, suffix);
    FormatOfParts(s, |prefix|);
  }

  /** The match starts at the `PT` that follows the prefix, whatever comes after it. */
  lemma PTBeforeGroups(prefix: string, hs: string, ms: string, suffix: string)
    requires FindPT(prefix, 0).None?
    ensures FindPT(prefix + "PT" + hs + "H" + ms + "M" + suffix, 0) == Some(|prefix|)
  {
    PTAfter(prefix);
    FindPTExtend(prefix + "PT", hs);
    FindPTExtend(prefix + "PT" + hs, "H");
    FindPTExtend(prefix + "PT" + hs + "H", ms);
    FindPTExtend(prefix + "PT" + hs + "H" + ms, "M");
    FindPTExtend(prefix + "PT" + hs + "H" + ms + "M", suffix);
  }

  lemma PartsHoursAndMinutes(prefix: string, h: nat, m: nat, suffix: string)
    ensures var s := prefix + "PT" + NatToString(h) + "H" + NatToString(m) + "M" + suffix;
      |prefix| + 2 <= |s| && Parts(s, |prefix|) == (h, m)
  {
    var hs, ms := NatToString(h), NatToString(m);
    var p := |prefix|;
    var s := prefix + "PT" + hs + "H" + ms + "M" + suffix;
    GroupAfter3(prefix + "PT", h, "H", ms, "M", suffix);
    GroupAfter(prefix + "PT" + hs + "H", m, "M", suffix);
    PartsOfGroups(s, p, Group(h, p + 2 + |hs| + 1), Group(m, p + 2 + |hs| + 1 + |ms| + 1));
  }

  /** A group written right after `u` and followed by anything is read back. */
  lemma GroupAfter(u: string, n: nat, d: string, c: string)
    requires |d| == 1 && !IsDigit(d[0])
    ensures MatchGroup(u + NatToString(n) + d + c, |u|, d[0]) == Some(Group(n, |u| + |NatToString(n)| + 1))
  {
    GroupOfNumber(u + NatToString(n) + d + c, |u|, n, d[0]);
  }

  /** The same, with what follows the group written in three parts. */
  lemma GroupAfter3(u: string, n: nat, d: string, a: string, b: string, c: string)
    requires |d| == 1 && !IsDigit(d[0])
    ensures MatchGroup(u + NatToString(n) + d + a + b + c, |u|, d[0]) == Some(Group(n, |u| + |NatToString(n)| + 1))
  {
    GroupOfNumber(u + NatToString(n) + d + a + b + c, |u|, n, d[0]);
  }

  /** Two groups read one after the other are the parts of the match. */
  lemma PartsOfGroups(s: string, p: nat, hours: Group, minutes: Group)
    requires p + 2 <= |s| && hours.end <= |s|
    requires MatchGroup(s, p + 2, 'H') == Some(hours)
    requires MatchGroup(s, hours.end, 'M') == Some(minutes)
    ensures Parts(s, p) == (hours.value, minutes.value)
  {
  }

  /** `PT<h>H` not followed by a digit becomes `"<h>h"`, and `PT0H` leaves
      the text as it is. */
  lemma {:induction false} FormatHoursOnly(prefix: string, h: nat, suffix: string)
    requires FindPT(prefix, 0).None?
    requires suffix == [] || !IsDigit(suffix[0])
    ensures var s := prefix + "PT" + NatToString(h) + "H" + suffix;
      FormatDuration(s) == if h != 0 then NatToString(h) + "h" else s
  {
    var s := prefix + "PT" + NatToString(h) + "H" + suffix;
    PartsHoursOnly(prefix, h, suffix);
    FormatOfParts(s, |prefix|);
  }

  lemma PartsHoursOnly(prefix: string, h: nat, suffix: string)
    requires FindPT(prefix, 0).None?
    requires suffix == [] || !IsDigit(suffix[0])
    ensures var s := prefix + "PT" + NatToString(h) + "H" + suffix;
      && FindPT(s, 0) == Some(|prefix|) && |prefix| + 2 <= |s| && Parts(s, |prefix|) == (h, 0)
  {
    var hs := NatToString(h);
    var p := |prefix|;
    var s := prefix + "PT" + hs + "H" + suffix;
    PTAfter(prefix);
    FindPTExtend(prefix + "PT", hs);
    FindPTExtend(prefix + "PT" + hs, "H");
    FindPTExtend(prefix + "PT" + hs + "H", suffix);
    GroupAfter(prefix + "PT", h, "H", suffix);
    var e := p + 2 + |hs| + 1;
    assert suffix != [] ==> s[e] == suffix[0];
    assert RunEnd(s, e) == e;
  }

  /** `PT<m>M` becomes `"<m>m"`, and `PT0M` leaves the text as it is: the
      hours group is absent and the minutes group is matched right after
      `PT`. */
  lemma {:induction false} FormatMinutesOnly(prefix: string, m: nat, suffix: string)
    requires FindPT(prefix, 0).None?
    ensures var s := prefix + "PT" + NatToString(m) + "M" + suffix;
      FormatDuration(s) == if m != 0 then NatToString(m) + "m" else s
  {
    var s := prefix + "PT" + NatToString(m) + "M" + suffix;
    PartsMinutesOnly(prefix, m, suffix);
    FormatOfParts(s, |prefix|);
  }

  lemma PartsMinutesOnly(prefix: string, m: nat, suffix: string)
    requires FindPT(prefix, 0).None?
    ensures var s := prefix + "PT" + NatToString(m) + "M" + suffix;
      && FindPT(s, 0) == Some(|prefix|) && |prefix| + 2 <= |s| && Parts(s, |prefix|) == (0, m)
  {
    var ms := NatToString(m);
    var p := |prefix|;
    var s := prefix + "PT" + ms + "M" + suffix;
    PTAfter(prefix);
    FindPTExtend(prefix + "PT", ms);
    FindPTExtend(prefix + "PT" + ms, "M");
    FindPTExtend(prefix + "PT" + ms + "M", suffix);
    GroupAfter(prefix + "PT", m, "M", suffix);
    assert MatchGroup(s, p + 2, 'H') == None;
  }

  /** `PT` with neither group leaves the text as it is. */
  lemma {:induction false} FormatBarePT(prefix: string, suffix: string)
    requires FindPT(prefix, 0).None?
    requires suffix == [] || !IsDigit(suffix[0])
    ensures FormatDuration(prefix + "PT" + suffix) == prefix + "PT" + suffix
  {
    var p := |prefix|;
    var s := prefix + "PT" + suffix;
    PTAfter(prefix);
    FindPTExtend(prefix + "PT", suffix);
    assert suffix != [] ==> s[p + 2] == suffix[0];
    assert RunEnd(s, p + 2) == p + 2;
    assert Parts(s, p) == (0, 0);
    FormatOfParts(s, p);
  }
}
