/** The string helpers of the client's utility module. Case mapping is
    ASCII-only and the absolute-date branch of the relative-time formatter
    is passed in already formatted. */
module Helpers {
  import opened Results
  import opened Text

  // ---------------------------------------------------------------------
  // truncateText

  /** `text.substr(0, n)` clamps a negative length to zero. */
  function Clamp(n: int): nat {
    if n < 0 then 0 else n
  }

  /** `truncateText`: short texts are returned as they are; longer ones are
      cut to `maxLength` characters and get an ellipsis. */
  function TruncateText(text: string, maxLength: int): (r: string)
    ensures |text| <= maxLength ==> r == text
    ensures |text| > maxLength ==> |r| == Clamp(maxLength) + 3
    ensures |text| > maxLength ==> r[..Clamp(maxLength)] == text[..Clamp(maxLength)]
    ensures |text| > maxLength ==> r[Clamp(maxLength)..] == "..."
  {
    if |text| <= maxLength then text
    else text[..Clamp(maxLength)] + "..."
  }

  /** The result never exceeds `maxLength + 3` characters (for a
      non-negative limit), and truncating again changes nothing. */
  lemma TruncateBoundAndIdempotent(text: string, maxLength: int)
    ensures maxLength >= 0 ==> |TruncateText(text, maxLength)| <= maxLength + 3
    ensures TruncateText(TruncateText(text, maxLength), maxLength) == TruncateText(text, maxLength)
  {
    var r := TruncateText(text, maxLength);
    if |text| > maxLength {
      var n := Clamp(maxLength);
      assert r[..n] == text[..n];
      assert TruncateText(r, maxLength) == r[..n] + "...";
    }
  }

  // ---------------------------------------------------------------------
  // capitalize

  /** `capitalize`: upper-case the first character, keep the rest. */
  function Capitalize(s: string): (r: string)
    ensures |r| == |s|
    ensures |s| > 0 ==> r[0] == UpperChar(s[0]) && r[1..] == s[1..]
  {
    if |s| == 0 then "" else [UpperChar(s[0])] + s[1..]
  }

  lemma CapitalizeIdempotent(s: string)
    ensures Capitalize(Capitalize(s)) == Capitalize(s)
  {
    if |s| > 0 {
      assert UpperChar(UpperChar(s[0])) == UpperChar(s[0]);
    }
  }

  // ---------------------------------------------------------------------
  // getUserInitials

  /** `s.charAt(0).toUpperCase()`: empty for an empty string. */
  function Initial(s: string): (r: string)
    ensures |r| == if |s| > 0 then 1 else 0
    ensures |s| > 0 ==> r[0] == UpperChar(s[0])
  {
    if |s| == 0 then "" else [UpperChar(s[0])]
  }

  /** `getUserInitials`: the last name counts only when present and
      non-empty, since an empty string is falsy. */
  function GetUserInitials(firstName: string, lastName: Option<string>): (r: string)
    ensures |r| <= 2
    ensures |r| == (if |firstName| > 0 then 1 else 0) + (if lastName.Some? && |lastName.value| > 0 then 1 else 0)
    ensures forall i :: 0 <= i < |r| ==> !('a' <= r[i] <= 'z')
    ensures |firstName| > 0 ==> r[0] == UpperChar(firstName[0])
    ensures lastName.Some? && |lastName.value| > 0 ==> r[|r| - 1] == UpperChar(lastName.value[0])
  {
    var last := match lastName
      case Some(l) => if |l| > 0 then Initial(l) else ""
      case None => "";
    Initial(firstName) + last
  }

  /** An absent last name and an empty one give the same initials. */
  lemma EmptyLastNameIsAbsent(firstName: string)
    ensures GetUserInitials(firstName, Some("")) == GetUserInitials(firstName, None)
    ensures GetUserInitials("ivan", Some("petrov")) == "IP"
  {
  }

  // ---------------------------------------------------------------------
  // formatRelativeTime

  const Minute: int := 60
  const Hour: int := 3600
  const Day: int := 86400
  const Month: int := 2592000

  /** `Math.floor((now - date) / 1000)` on millisecond timestamps. Dafny's
      division by a positive divisor rounds down, as `Math.floor` does. */
  function ElapsedSeconds(nowMs: int, dateMs: int): (d: int)
    ensures d * 1000 <= nowMs - dateMs < d * 1000 + 1000
  {
    (nowMs - dateMs) / 1000
  }

  datatype Relative = JustNow | Ago(count: nat, unit: string) | Absolute

  /** The bucket a number of elapsed seconds falls into. Negative values
      (a date in the future) count as "just now". */
  function Bucket(diff: int): (r: Relative)
    ensures r.JustNow? <==> diff < Minute
    ensures r.Absolute? <==> diff >= Month
    ensures r.Ago? ==> r.count >= 1
    ensures r.Ago? && r.unit == "minute" ==> r.count * Minute <= diff < (r.count + 1) * Minute && r.count < 60
    ensures r.Ago? && r.unit == "hour" ==> r.count * Hour <= diff < (r.count + 1) * Hour && r.count < 24
    ensures r.Ago? && r.unit == "day" ==> r.count * Day <= diff < (r.count + 1) * Day && r.count < 30
    ensures r.Ago? ==> r.unit == (if diff < Hour then "minute" else if diff < Day then "hour" else "day")
  {
    if diff < Minute then JustNow
    else if diff < Hour then Ago(diff / Minute, "minute")
    else if diff < Day then Ago(diff / Hour, "hour")
    else if diff < Month then Ago(diff / Day, "day")
    else Absolute
  }

  /** `${count} ${unit}${count > 1 ? 's' : ''} ago` */
  function AgoText(count: nat, unit: string): (t: string)
    ensures StartsWith(t, NatToString(count) + " " + unit)
  {
    var head := NatToString(count) + " " + unit;
    var t := head + (if count > 1 then "s" else "") + " ago";
    assert t[..|head|] == head;
    t
  }

  /** `formatRelativeTime`, with the absolute date already formatted. */
  function FormatRelativeTime(nowMs: int, dateMs: int, absoluteDate: string): (t: string)
    ensures Bucket(ElapsedSeconds(nowMs, dateMs)).JustNow? ==> t == "just now"
    ensures Bucket(ElapsedSeconds(nowMs, dateMs)).Absolute? ==> t == absoluteDate
    ensures var b := Bucket(ElapsedSeconds(nowMs, dateMs));
            b.Ago? ==> t == AgoText(b.count, b.unit)
  {
    match Bucket(ElapsedSeconds(nowMs, dateMs))
    case JustNow => "just now"
    case Ago(n, u) => AgoText(n, u)
    case Absolute => absoluteDate
  }

  /** The plural suffix appears exactly when the count exceeds one. */
  lemma PluralIffMoreThanOne(count: nat, unit: string)
    ensures var t := AgoText(count, unit);
            var head := NatToString(count) + " " + unit;
            (count > 1 ==> t == head + "s ago") && (count <= 1 ==> t == head + " ago")
  {
  }

  /** Ninety seconds read as one minute, and two hours as two hours. */
  lemma RelativeExamples()
    ensures Bucket(90) == Ago(1, "minute")
    ensures Bucket(7200) == Ago(2, "hour")
    ensures Bucket(-5) == JustNow
    ensures Bucket(2592000) == Absolute
  {
  }

  // ---------------------------------------------------------------------
  // isValidEmail

  /** A character of the class `[^\s@]`. */
  predicate IsAddressChar(c: char) {
    !IsWhitespace(c) && c != '@'
  }

  /** `/^[^\s@]+@[^\s@]+\.[^\s@]+$/` matches with the `@` at `at` and the
      chosen `.` at `dot`: three non-empty runs of address characters. */
  predicate MatchesAt(e: string, at: int, dot: int) {
    && 0 < at && at + 1 < dot && dot < |e| - 1
    && e[at] == '@' && e[dot] == '.'
    && (forall k :: 0 <= k < |e| && k != at ==> IsAddressChar(e[k]))
  }

  predicate EmailPattern(e: string) {
    exists at, dot | 0 <= at < |e| && 0 <= dot < |e| :: MatchesAt(e, at, dot)
  }

  /** `isValidEmail`: one scan for the single `@` and for whitespace, then
      a search for a `.` with text on both sides in the domain. */
  method IsValidEmail(email: string) returns (ok: bool)
    ensures ok <==> EmailPattern(email)
  {
    var at := -1;
    var i := 0;
    while i < |email|
      invariant 0 <= i <= |email|
      invariant -1 <= at < i
      invariant at >= 0 ==> email[at] == '@'
      invariant forall k :: 0 <= k < i && k != at ==> IsAddressChar(email[k])
      invariant at == -1 ==> forall k :: 0 <= k < i ==> email[k] != '@'
    {
      var c := email[i];
      if IsWhitespace(c) || (c == '@' && at >= 0) {
        NoMatchWith(email, i, at);
        return false;
      }
      if c == '@' {
        at := i;
      }
      i := i + 1;
    }
    if at <= 0 {
      return false;
    }
    var j := at + 2;
    while j < |email| - 1
      invariant at + 2 <= j
      invariant forall k :: at + 2 <= k < j && k < |email| - 1 ==> email[k] != '.'
    {
      if email[j] == '.' {
        assert MatchesAt(email, at, j);
        return true;
      }
      j := j + 1;
    }
    assert forall a, d :: MatchesAt(email, a, d) ==> a == at by {
      forall a, d | MatchesAt(email, a, d) ensures a == at {
        assert email[a] == '@';
      }
    }
    return false;
  }

  /** A whitespace character, or a second `@` besides the one at `at`,
      rules out every match. */
  lemma NoMatchWith(e: string, i: int, at: int)
    requires 0 <= i < |e| && -1 <= at < i
    requires IsWhitespace(e[i]) || (e[i] == '@' && at >= 0 && e[at] == '@')
    ensures !EmailPattern(e)
  {
  }

  /** `@` occurs exactly once, at `at`. */
  predicate SingleAt(e: string, at: int) {
    0 <= at < |e| && e[at] == '@' && forall k :: 0 <= k < |e| && k != at ==> e[k] != '@'
  }

  /** A `.` after the `@` at `at`, with text on both of its sides. */
  predicate DomainHasDot(e: string, at: int) {
    exists dot | 0 <= dot < |e| :: at + 1 < dot < |e| - 1 && e[dot] == '.'
  }

  /** The pattern in words: no whitespace, exactly one `@` with something
      before it, and a `.` in the domain with text on both sides. */
  lemma EmailPatternInWords(e: string)
    ensures EmailPattern(e) <==>
      NoWhitespace(e) && exists at | 0 <= at < |e| :: SingleAt(e, at) && at > 0 && DomainHasDot(e, at)
  {
    if EmailPattern(e) {
      var at, dot :| 0 <= at < |e| && 0 <= dot < |e| && MatchesAt(e, at, dot);
      assert SingleAt(e, at);
      assert NoWhitespace(e) by {
        forall k | 0 <= k < |e| ensures !IsWhitespace(e[k]) {
          if k != at {
            assert IsAddressChar(e[k]);
          }
        }
      }
    }
    if NoWhitespace(e) && exists at | 0 <= at < |e| :: SingleAt(e, at) && at > 0 && DomainHasDot(e, at) {
      var at :| 0 <= at < |e| && SingleAt(e, at) && at > 0 && DomainHasDot(e, at);
      var dot :| 0 <= dot < |e| && at + 1 < dot < |e| - 1 && e[dot] == '.';
      assert MatchesAt(e, at, dot);
    }
  }
}
