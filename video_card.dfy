/** The formatters of the video card: how long ago a video was posted, the
    view-count badge, the placeholder title and the avatar initial. The
    current time and date parsing are parameters: the card receives the
    elapsed time in milliseconds. */
module VideoCard {
  import opened JsText

  datatype TimeUnit = Years | Months | Days | Hours | Minutes | Seconds

  /** Seconds per unit: a year is 365 days and a month 30 days. */
  function Divisor(u: TimeUnit): (d: nat)
    ensures d >= 1
  {
    match u
    case Years => 31536000
    case Months => 2592000
    case Days => 86400
    case Hours => 3600
    case Minutes => 60
    case Seconds => 1
  }

  function Word(u: TimeUnit): string
  {
    match u
    case Years => "years"
    case Months => "months"
    case Days => "days"
    case Hours => "hours"
    case Minutes => "minutes"
    case Seconds => "seconds"
  }

  /** The units in the order the cascade tries them. */
  const Cascade: seq<TimeUnit> := [Years, Months, Days, Hours, Minutes]

  /** `Math.floor(ms / 1000)`: whole seconds, rounded down also for a date in
      the future. */
  function ElapsedSeconds(elapsedMs: int): (s: int)
    ensures s * 1000 <= elapsedMs < s * 1000 + 1000
  {
    elapsedMs / 1000
  }

  /** The cascade of `formatTimeAgo`: `seconds / divisor > 1` holds exactly
      when seconds exceeds the divisor, so the first unit whose divisor is
      exceeded wins, and seconds is the fallback. */
  function PickUnit(seconds: int): TimeUnit
  {
    if seconds > 31536000 then Years
    else if seconds > 2592000 then Months
    else if seconds > 86400 then Days
    else if seconds > 3600 then Hours
    else if seconds > 60 then Minutes
    else Seconds
  }

  /** The number shown with the unit: `Math.floor(seconds / divisor)`. */
  function Count(seconds: int, u: TimeUnit): int
  {
    seconds / Divisor(u)
  }

  /** Reference definition: the first unit of the list whose divisor the
      elapsed seconds exceed, seconds when there is none. */
  function FirstExceeded(seconds: int, units: seq<TimeUnit>): TimeUnit
  {
    if units == [] then Seconds
    else if seconds > Divisor(units[0]) then units[0]
    else FirstExceeded(seconds, units[1..])
  }

  /** The cascade picks the first unit of years, months, days, hours, minutes
      whose divisor is strictly exceeded; at most 60 seconds, which includes
      negative values for dates in the future, is shown in seconds. */
  lemma PickUnitIsFirstExceeded(seconds: int)
    ensures PickUnit(seconds) == FirstExceeded(seconds, Cascade)
    ensures PickUnit(seconds) == Seconds <==> seconds <= 60
    ensures forall i | 0 <= i < |Cascade| && Cascade[i] == PickUnit(seconds) ::
              forall j | 0 <= j < i :: seconds <= Divisor(Cascade[j])
  {
    var c := Cascade;
    assert c[1..] == [Months, Days, Hours, Minutes];
    assert [Months, Days, Hours, Minutes][1..] == [Days, Hours, Minutes];
    assert [Days, Hours, Minutes][1..] == [Hours, Minutes];
    assert [Hours, Minutes][1..] == [Minutes];
    assert [Minutes][1..] == [];
    assert FirstExceeded(seconds, [Minutes]) == if seconds > 60 then Minutes else Seconds;
    assert FirstExceeded(seconds, [Hours, Minutes]) == if seconds > 3600 then Hours else FirstExceeded(seconds, [Minutes]);
    assert FirstExceeded(seconds, [Days, Hours, Minutes]) == if seconds > 86400 then Days else FirstExceeded(seconds, [Hours, Minutes]);
    assert FirstExceeded(seconds, c[1..]) == if seconds > 2592000 then Months else FirstExceeded(seconds, [Days, Hours, Minutes]);
  }

  /** The count shown for every unit above seconds is at least 1, and the
      unit and count bracket the elapsed time: count whole units fit, one more
      would not. */
  lemma CountBrackets(seconds: int)
    ensures var u := PickUnit(seconds);
            var c := Count(seconds, u);
            (u != Seconds ==> c >= 1) &&
            c * Divisor(u) <= seconds < (c + 1) * Divisor(u)
  {
    var u := PickUnit(seconds);
    var d := Divisor(u);
    var c := seconds / d;
    assert c * d <= seconds < (c + 1) * d;
    if u != Seconds {
      assert seconds > d;
    }
  }

  /** `formatTimeAgo`: empty for an absent or empty date, otherwise the count,
      the unit and "ago". */
  function FormatTimeAgo(createdAt: Option<string>, elapsedMs: int): (r: string)
    ensures r == "" <==> !Present(createdAt)
  {
    if !Present(createdAt) then ""
    else
      var s := ElapsedSeconds(elapsedMs);
      var u := PickUnit(s);
      IntToString(Count(s, u)) + " " + Word(u) + " ago"
  }

  /** A date between one and two years old shows "1 years ago". */
  lemma OneYearAgo(createdAt: Option<string>, elapsedMs: int)
    requires Present(createdAt)
    requires 31536001000 <= elapsedMs < 63072000000
    ensures FormatTimeAgo(createdAt, elapsedMs) == "1 years ago"
  {
    var s := ElapsedSeconds(elapsedMs);
    assert 31536001 <= s;
    assert Count(s, Years) == 1;
  }

  // ---------------------------------------------------------------------------
  // View count badge
  // ---------------------------------------------------------------------------

  /** The badge form of `formatViewCount`: millions, thousands (each with one
      decimal place, not modelled), or the plain number. */
  datatype ViewLabel = Millions | Thousands | Plain(text: string)

  function FormatViewCount(views: int): (l: ViewLabel)
    ensures l.Millions? <==> views >= 1000000
    ensures l.Thousands? <==> 1000 <= views < 1000000
    ensures l.Plain? <==> views < 1000
  {
    if views >= 1000000 then Millions
    else if views >= 1000 then Thousands
    else Plain(IntToString(views))
  }

  /** Below a thousand the badge is the decimal number itself, at most three
      digits, and reads back as the view count. */
  lemma PlainViewCount(views: nat)
    requires views < 1000
    ensures FormatViewCount(views).Plain?
    ensures |FormatViewCount(views).text| <= 3
    ensures ParseNat(FormatViewCount(views).text) == Some(views)
  {
    NatToStringLength(views);
    NatStringRoundTrip(views);
  }

  // ---------------------------------------------------------------------------
  // Placeholder title and avatar initial
  // ---------------------------------------------------------------------------

  /** `title.substring(0, 20)` followed by "..." when the title is longer. */
  function PlaceholderTitle(title: string): (r: string)
    ensures |title| <= 20 ==> r == title
    ensures |title| > 20 ==> |r| == 23 && r[..20] == title[..20] && r[20..] == "..."
    ensures |r| <= 23
  {
    if |title| > 20 then title[..20] + "..." else title
  }

  /** `(creatorUsername || channelName || 'U').charAt(0).toUpperCase()`. */
  function AvatarInitial(creatorUsername: Option<string>, channelName: Option<string>): (r: string)
    ensures |r| == 1
    ensures Present(creatorUsername) ==> r[0] == ToUpperAscii(creatorUsername.value[0])
    ensures !Present(creatorUsername) && Present(channelName) ==> r[0] == ToUpperAscii(channelName.value[0])
    ensures !Present(creatorUsername) && !Present(channelName) ==> r == "U"
  {
    var name := if Present(creatorUsername) then creatorUsername.value
                else if Present(channelName) then channelName.value
                else "U";
    [ToUpperAscii(name[0])]
  }
}
