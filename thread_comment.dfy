/**
 * The logic of the thread-comment component: the relative-time label shown next
 * to a comment, the resolution of the comment it replies to, and the fallback
 * used when the like count is displayed.
 */
module ThreadComment {
  import opened Wrappers

  // ---------------------------------------------------------------------------
  // Relative time
  // ---------------------------------------------------------------------------

  const MsPerSecond: int := 1000
  const SecondsPerMinute: int := 60
  const MinutesPerHour: int := 60
  const HoursPerDay: int := 24

  const MsPerMinute: int := 60_000
  const MsPerHour: int := 3_600_000
  const MsPerDay: int := 86_400_000

  /** The four kinds of label: "N日前", "N時間前", "N分前" and "たった今". */
  datatype RelativeLabel =
    | DaysAgo(days: nat)
    | HoursAgo(hours: nat)
    | MinutesAgo(minutes: nat)
    | JustNow

  /**
   * Independent description of the label a millisecond difference deserves:
   * the label's count is the number of whole units in the difference, and the
   * unit is the coarsest one of which the difference holds at least one.
   */
  ghost predicate Denotes(l: RelativeLabel, diff: int) {
    match l
    case JustNow => diff < MsPerMinute
    case MinutesAgo(m) => 1 <= m < 60 && m * MsPerMinute <= diff < (m + 1) * MsPerMinute
    case HoursAgo(h) => 1 <= h < 24 && h * MsPerHour <= diff < (h + 1) * MsPerHour
    case DaysAgo(d) => 1 <= d && d * MsPerDay <= diff < (d + 1) * MsPerDay
  }

  /** The chained floors of the component collapse to single divisions by MsPerMinute, MsPerHour and MsPerDay. */
  lemma NestedFloorsCollapse(diff: int)
    ensures diff / MsPerSecond / SecondsPerMinute == diff / MsPerMinute
    ensures diff / MsPerSecond / SecondsPerMinute / MinutesPerHour == diff / MsPerHour
    ensures diff / MsPerSecond / SecondsPerMinute / MinutesPerHour / HoursPerDay == diff / MsPerDay
  {
  }

  /**
   * The label for a comment created at `createdAt` (epoch milliseconds), seen at
   * time `now`. Every label obeys Denotes, including those for a creation time in
   * the future (a negative difference), which read "just now".
   */
  function RelativeTime(now: int, createdAt: int): (r: RelativeLabel)
    ensures Denotes(r, now - createdAt)
  {
    var diff := now - createdAt;
    var seconds := diff / MsPerSecond;
    var minutes := seconds / SecondsPerMinute;
    var hours := minutes / MinutesPerHour;
    var days := hours / HoursPerDay;
    NestedFloorsCollapse(diff);
    if days > 0 then DaysAgo(days)
    else if hours > 0 then HoursAgo(hours)
    else if minutes > 0 then MinutesAgo(minutes)
    else JustNow
  }

  /** At most one label denotes a given difference. */
  lemma DenotesUnique(l1: RelativeLabel, l2: RelativeLabel, diff: int)
    requires Denotes(l1, diff) && Denotes(l2, diff)
    ensures l1 == l2
  {
  }

  /** The label is exactly the one that Denotes the difference, in both directions. */
  lemma RelativeTimeCharacterised(now: int, createdAt: int, l: RelativeLabel)
    ensures RelativeTime(now, createdAt) == l <==> Denotes(l, now - createdAt)
  {
    if Denotes(l, now - createdAt) {
      DenotesUnique(l, RelativeTime(now, createdAt), now - createdAt);
    }
  }

  /** The four bands of the if/else chain, with the range of each count. */
  lemma RelativeTimeBands(now: int, createdAt: int)
    ensures var diff, r := now - createdAt, RelativeTime(now, createdAt);
      && (diff < MsPerMinute <==> r == JustNow)
      && (MsPerMinute <= diff < MsPerHour <==> r.MinutesAgo?)
      && (r.MinutesAgo? ==> r.minutes == diff / MsPerMinute && 1 <= r.minutes <= 59)
      && (MsPerHour <= diff < MsPerDay <==> r.HoursAgo?)
      && (r.HoursAgo? ==> r.hours == diff / MsPerHour && 1 <= r.hours <= 23)
      && (MsPerDay <= diff <==> r.DaysAgo?)
      && (r.DaysAgo? ==> r.days == diff / MsPerDay && r.days >= 1)
  {
  }

  /** For a fixed creation time, a later `now` never yields a finer unit or a smaller count. */
  lemma RelativeTimeMonotone(now1: int, now2: int, createdAt: int)
    requires now1 <= now2
    ensures Magnitude(RelativeTime(now1, createdAt)) <= Magnitude(RelativeTime(now2, createdAt))
  {
  }

  /** The whole milliseconds a label accounts for (zero for "just now"). */
  function Magnitude(l: RelativeLabel): int {
    match l
    case JustNow => 0
    case MinutesAgo(m) => m * MsPerMinute
    case HoursAgo(h) => h * MsPerHour
    case DaysAgo(d) => d * MsPerDay
  }

  // ---------------------------------------------------------------------------
  // Label text
  // ---------------------------------------------------------------------------

  predicate IsDigit(c: char) { '0' <= c <= '9' }

  function DigitChar(n: nat): (c: char)
    requires n < 10
    ensures IsDigit(c) && DigitValue(c) == n
  {
    ['0', '1', '2', '3', '4', '5', '6', '7', '8', '9'][n]
  }

  function DigitValue(c: char): nat
    requires IsDigit(c)
  {
    (c as int - '0' as int) as nat
  }

  /** The decimal text a template literal gives a non-negative integer. */
  function Decimal(n: nat): (s: string)
    ensures |s| >= 1 && forall i :: 0 <= i < |s| ==> IsDigit(s[i])
    ensures s[0] == '0' <==> n == 0
    ensures |s| > 1 ==> s[0] != '0'
  {
    if n < 10 then [DigitChar(n)] else Decimal(n / 10) + [DigitChar(n % 10)]
  }

  /** Reads a string of decimal digits back as a number. */
  function ParseDecimal(s: string): nat
    requires forall i :: 0 <= i < |s| ==> IsDigit(s[i])
  {
    if s == [] then 0 else ParseDecimal(s[..|s| - 1]) * 10 + DigitValue(s[|s| - 1])
  }

  lemma {:induction false} DecimalRoundTrip(n: nat)
    ensures ParseDecimal(Decimal(n)) == n
  {
    if n >= 10 {
      var s := Decimal(n);
      assert s[..|s| - 1] == Decimal(n / 10);
      DecimalRoundTrip(n / 10);
    }
  }

  const DaysSuffix: string := "日前"
  const HoursSuffix: string := "時間前"
  const MinutesSuffix: string := "分前"
  const JustNowText: string := "たった今"

  /** The text the component displays for a label. */
  function Render(l: RelativeLabel): (r: string)
    ensures r == JustNowText <==> l == JustNow
    ensures l != JustNow ==> |r| > 0 && IsDigit(r[0])
  {
    match l
    case DaysAgo(d) => NotJustNow(d, DaysSuffix); Decimal(d) + DaysSuffix
    case HoursAgo(h) => NotJustNow(h, HoursSuffix); Decimal(h) + HoursSuffix
    case MinutesAgo(m) => NotJustNow(m, MinutesSuffix); Decimal(m) + MinutesSuffix
    case JustNow => JustNowText
  }

  predicate AllDigits(s: string) { forall i :: 0 <= i < |s| ==> IsDigit(s[i]) }

  /** Parses a count without leading zeros followed by one suffix, if the text has that shape. */
  function ParseCount(s: string, suffix: string): (r: Option<nat>)
    ensures r.Some? ==> |suffix| < |s| && s[|s| - |suffix|..] == suffix
    ensures r.Some? ==> |s| - |suffix| == 1 || s[0] != '0'
  {
    if |suffix| < |s| && s[|s| - |suffix|..] == suffix && AllDigits(s[..|s| - |suffix|])
      && (|s| - |suffix| == 1 || s[0] != '0')
    then Some(ParseDecimal(s[..|s| - |suffix|]))
    else None
  }

  /** The inverse of Render: recovers the label from the displayed text. */
  function ParseLabel(s: string): Option<RelativeLabel> {
    if s == JustNowText then Some(JustNow)
    else if ParseCount(s, HoursSuffix).Some? then Some(HoursAgo(ParseCount(s, HoursSuffix).value))
    else if ParseCount(s, DaysSuffix).Some? then Some(DaysAgo(ParseCount(s, DaysSuffix).value))
    else if ParseCount(s, MinutesSuffix).Some? then Some(MinutesAgo(ParseCount(s, MinutesSuffix).value))
    else None
  }

  lemma ParseCountOfRendered(n: nat, suffix: string)
    requires |suffix| >= 1 && !IsDigit(suffix[0])
    ensures ParseCount(Decimal(n) + suffix, suffix) == Some(n)
  {
    var s := Decimal(n) + suffix;
    assert s[..|s| - |suffix|] == Decimal(n);
    assert s[|s| - |suffix|..] == suffix;
    DecimalRoundTrip(n);
  }

  /** Suffixes that differ in their second-to-last character: a text ending in one does not end in the other. */
  lemma ParseCountOtherSuffix(n: nat, suffix: string, other: string)
    requires |suffix| >= 2 && |other| >= 2 && suffix[|suffix| - 2] != other[|other| - 2]
    ensures ParseCount(Decimal(n) + suffix, other).None?
  {
  }

  /** Distinct labels are displayed as distinct texts: the text determines the label. */
  lemma RenderRoundTrip(l: RelativeLabel)
    ensures ParseLabel(Render(l)) == Some(l)
  {
    match l
    case JustNow =>
    case HoursAgo(h) =>
      NotJustNow(h, HoursSuffix);
      ParseCountOfRendered(h, HoursSuffix);
    case DaysAgo(d) =>
      NotJustNow(d, DaysSuffix);
      ParseCountOtherSuffix(d, DaysSuffix, HoursSuffix);
      ParseCountOfRendered(d, DaysSuffix);
    case MinutesAgo(m) =>
      NotJustNow(m, MinutesSuffix);
      ParseCountOtherSuffix(m, MinutesSuffix, HoursSuffix);
      ParseCountOtherSuffix(m, MinutesSuffix, DaysSuffix);
      ParseCountOfRendered(m, MinutesSuffix);
  }

  /** A digit string without a leading zero reads as a positive number. */
  lemma {:induction false} ParseDecimalPos(s: string)
    requires |s| >= 1 && AllDigits(s) && s[0] != '0'
    ensures ParseDecimal(s) >= 1
  {
    if |s| > 1 {
      ParseDecimalPos(s[..|s| - 1]);
    }
  }

  /** A digit string without a leading zero is the decimal text of the number it reads as. */
  lemma {:induction false} CanonicalDecimal(s: string)
    requires |s| >= 1 && AllDigits(s) && (|s| == 1 || s[0] != '0')
    ensures Decimal(ParseDecimal(s)) == s
  {
    var p := s[..|s| - 1];
    var d := DigitValue(s[|s| - 1]);
    assert DigitChar(d) == s[|s| - 1];
    if |s| == 1 {
      assert p == [];
    } else {
      ParseDecimalPos(p);
      CanonicalDecimal(p);
      var n := ParseDecimal(s);
      assert n == ParseDecimal(p) * 10 + d;
      assert n / 10 == ParseDecimal(p) && n % 10 == d;
      assert s == p + [s[|s| - 1]];
    }
  }

  /** A text that parses as a count and a suffix is exactly that count's decimal text followed by the suffix. */
  lemma ParsedCountIsCanonical(s: string, suffix: string)
    requires ParseCount(s, suffix).Some?
    ensures s == Decimal(ParseCount(s, suffix).value) + suffix
  {
    var p := s[..|s| - |suffix|];
    assert p[0] == s[0];
    CanonicalDecimal(p);
    assert s == p + s[|s| - |suffix|..];
  }

  /** The only text that reads as a label is that label's rendered text: each label has exactly one display text. */
  lemma ParseLabelInjective(s: string, l: RelativeLabel)
    requires ParseLabel(s) == Some(l)
    ensures s == Render(l)
  {
    if s == JustNowText {
    } else if ParseCount(s, HoursSuffix).Some? {
      ParsedCountIsCanonical(s, HoursSuffix);
    } else if ParseCount(s, DaysSuffix).Some? {
      ParsedCountIsCanonical(s, DaysSuffix);
    } else {
      ParsedCountIsCanonical(s, MinutesSuffix);
    }
  }

  lemma NotJustNow(n: nat, suffix: string)
    ensures Decimal(n) + suffix != JustNowText
  {
    var s := Decimal(n) + suffix;
    assert s[0] == Decimal(n)[0];
    assert !IsDigit(JustNowText[0]);
  }

  // ---------------------------------------------------------------------------
  // Comments and reply targets
  // ---------------------------------------------------------------------------

  datatype Author = Author(id: string, name: string, avatar: string)

  /** A like count as the component receives it: a number, or `undefined` / `NaN`. */
  datatype LikeCount = Count(n: int) | Missing

  /** The props of one comment. `createdAt` is in epoch milliseconds. */
  datatype Comment = Comment(
    id: string,
    content: string,
    author: Author,
    createdAt: int,
    likes: LikeCount,
    isLiked: bool,
    replyToId: Option<string>,
    replyToAuthor: Option<string>,
    image: Option<string>,
    isThreadAuthor: bool)

  /** `k` is the position of the first comment whose id is `id`. */
  ghost predicate IsFirstMatch(comments: seq<Comment>, id: string, k: int) {
    0 <= k < |comments| && comments[k].id == id &&
    forall j :: 0 <= j < k ==> comments[j].id != id
  }

  /** `allComments.find(c => c.id === id)`: a left-to-right scan for the first match. */
  function FindById(comments: seq<Comment>, id: string): (r: Option<Comment>)
    ensures r.None? <==> forall j :: 0 <= j < |comments| ==> comments[j].id != id
    ensures r.Some? ==> exists k :: IsFirstMatch(comments, id, k) && comments[k] == r.value
  {
    if comments == [] then None
    else if comments[0].id == id then
      assert IsFirstMatch(comments, id, 0);
      Some(comments[0])
    else
      var r := FindById(comments[1..], id);
      assert r.None? ==> forall j :: 0 <= j < |comments| ==> comments[j].id != id by {
        if r.None? {
          forall j | 0 <= j < |comments| ensures comments[j].id != id {
            if j > 0 { assert comments[j] == comments[1..][j - 1]; }
          }
        }
      }
      assert r.Some? ==> exists k :: IsFirstMatch(comments, id, k) && comments[k] == r.value by {
        if r.Some? {
          var k :| IsFirstMatch(comments[1..], id, k) && comments[1..][k] == r.value;
          assert IsFirstMatch(comments, id, k + 1);
        }
      }
      r
  }

  /**
   * The comment whose reply banner is shown above a comment: none when the
   * comment has no (or an empty) `replyToId`, otherwise the first comment in
   * list order carrying that id, or none when no comment carries it.
   */
  function ReplyTarget(replyToId: Option<string>, allComments: seq<Comment>): (r: Option<Comment>)
    ensures (replyToId.None? || replyToId == Some("")) ==> r.None?
    ensures r.Some? ==> r.value in allComments && replyToId == Some(r.value.id)
    ensures replyToId.Some? && replyToId.value != "" ==>
      (r.None? <==> forall j :: 0 <= j < |allComments| ==> allComments[j].id != replyToId.value)
  {
    if replyToId.None? || replyToId.value == "" then None
    else
      var r := FindById(allComments, replyToId.value);
      assert r.Some? ==> r.value in allComments;
      r
  }

  /** When the reply target resolves, it is the first comment in list order with the referenced id. */
  lemma ReplyTargetIsFirst(replyToId: string, allComments: seq<Comment>, k: int)
    requires replyToId != ""
    requires IsFirstMatch(allComments, replyToId, k)
    ensures ReplyTarget(Some(replyToId), allComments) == Some(allComments[k])
  {
  }

  /** The like count the component displays: `likes || 0`. */
  function DisplayedLikes(likes: LikeCount): (r: int)
    ensures likes.Count? ==> r == likes.n
    ensures likes.Missing? ==> r == 0
  {
    match likes
    case Count(n) => if n != 0 then n else 0
    case Missing => 0
  }
}
