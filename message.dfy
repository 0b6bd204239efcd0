/** How the message widget lays out one event group: which side each bubble
    sits on, how its corners are rounded, where the sender's name and avatar
    go, and the "HH:MM" time under each message. Sizes are the widget's `f32`
    values taken as reals; colours and strokes are left to the renderer. */
module MessageWidget {
  import opened Ints
  import opened Results
  import opened Decimal
  import opened Clients

  datatype MessageSide = Left | Right

  /** The parts of `MessageStyle` that decide the layout. */
  datatype MessageStyle = MessageStyle(
    cornerRadius: real,
    avatarSize: real,
    groupSpacing: real,
    selfMessageSide: MessageSide)

  /** `MessageStyle::default()`. */
  function DefaultStyle(): (s: MessageStyle)
    ensures s.cornerRadius == 12.0 && s.avatarSize == 32.0 && s.groupSpacing == 8.0
    ensures s.selfMessageSide == Left
    ensures forall fromSelf: bool :: !Mirrored(s, fromSelf)
  {
    MessageStyle(12.0, 32.0, 8.0, Left)
  }

  /** Radius of a corner where two bubbles of a group meet. */
  const SmallRadius: real := 2.0

  /** Gap between the avatar column and the bubbles. */
  const AvatarGap: real := 8.0

  datatype CornerRadius = CornerRadius(nw: real, ne: real, sw: real, se: real)

  /** The same corners seen in a mirror: left and right swapped. */
  function Mirror(c: CornerRadius): (m: CornerRadius)
    ensures m.nw == c.ne && m.ne == c.nw && m.sw == c.se && m.se == c.sw
  {
    CornerRadius(c.ne, c.nw, c.se, c.sw)
  }

  /** Whether a group's bubbles are drawn mirrored, with the sender's edge on the right. */
  predicate Mirrored(style: MessageStyle, fromSelf: bool) {
    fromSelf && style.selfMessageSide == Right
  }

  /** `calculate_bubble_rounding`. The two corners away from the sender's edge
      are always fully rounded; on the sender's edge the top corner is fully
      rounded only on the first bubble of a group and the bottom one only on
      the last, so consecutive bubbles meet at small corners. */
  function BubbleRounding(style: MessageStyle, fromSelf: bool, isFirst: bool, isLast: bool): (r: CornerRadius)
    ensures var senderTop := if Mirrored(style, fromSelf) then r.ne else r.nw;
      senderTop == (if isFirst then style.cornerRadius else SmallRadius)
    ensures var senderBottom := if Mirrored(style, fromSelf) then r.se else r.sw;
      senderBottom == (if isLast then style.cornerRadius else SmallRadius)
    ensures var outerTop := if Mirrored(style, fromSelf) then r.nw else r.ne;
      outerTop == style.cornerRadius
    ensures var outerBottom := if Mirrored(style, fromSelf) then r.sw else r.se;
      outerBottom == style.cornerRadius
  {
    var isOnly := isFirst && isLast;
    var radius := style.cornerRadius;
    var nw := if isFirst || isOnly then radius else SmallRadius;
    var sw := if isLast || isOnly then radius else SmallRadius;
    var plain := CornerRadius(nw, radius, sw, radius);
    if Mirrored(style, fromSelf) then Mirror(plain) else plain
  }

  /** A bubble that is both first and last is rounded on all four corners. */
  lemma SingleBubbleFullyRounded(style: MessageStyle, fromSelf: bool)
    ensures var r := BubbleRounding(style, fromSelf, true, true);
      r.nw == r.ne == r.sw == r.se == style.cornerRadius
  {
  }

  /** Putting this account's messages on the right mirrors their rounding. */
  lemma RightSideMirrorsRounding(style: MessageStyle, isFirst: bool, isLast: bool)
    ensures BubbleRounding(style.(selfMessageSide := Right), true, isFirst, isLast)
         == Mirror(BubbleRounding(style.(selfMessageSide := Left), true, isFirst, isLast))
  {
  }

  /** The side a group's rows are aligned to: this account's groups follow the
      style, everyone else's are on the left. */
  function Side(style: MessageStyle, group: EventGroup): (side: MessageSide)
    ensures !group.fromSelf ==> side == Left
    ensures side == Right <==> Mirrored(style, group.fromSelf)
  {
    if group.fromSelf then style.selfMessageSide else Left
  }

  /** What precedes a left-aligned bubble: nothing, the sender's avatar image
      under the texture key `user-avatar-<user id>`, or blank space. */
  datatype Leading = NoLeading | AvatarImage(textureKey: string, image: Bytes, size: real) | Spacer(width: real)

  /** The drawn bubble: its background (this account's colour or the other),
      its corners, the sender name over the text if shown, the text, and the
      time under it (`None` where formatting the time panics). */
  datatype Bubble = Bubble(selfColours: bool, rounding: CornerRadius, name: Option<string>, text: string, time: Option<string>)

  /** One row of a group: its alignment, what precedes the bubble, the bubble,
      and whether a gap follows it. */
  datatype Row = Row(side: MessageSide, leading: Leading, bubble: Bubble, trailingGap: bool)

  /** The `is_first` / `is_last` flags of row `idx` in a group of `n` events. */
  function RowFlags(n: nat, idx: nat): (flags: (bool, bool))
    requires idx < n
    ensures flags.0 <==> idx == 0
    ensures flags.1 <==> idx + 1 == n
    ensures n == 1 ==> flags.0 && flags.1
  {
    (idx == 0, idx == n - 1)
  }

  const SecondsPerDay: int := 86400

  /** Range of seconds chrono accepts (years -262143 to 262142, the range of
      chrono 0.4.35 and later); outside it `timestamp_opt` yields nothing and
      `unwrap` panics. */
  const MinTimestamp: int := -8334601228800
  const MaxTimestamp: int := 8210266876799

  /** A number below 100 as two digits with a leading zero. */
  function Pad2(n: nat): (s: string)
    requires n < 100
    ensures |s| == 2 && AllDigits(s)
    ensures DigitsValue(s) == n
  {
    var s := [DigitChar(n / 10), DigitChar(n % 10)];
    var tens := [DigitChar(n / 10)];
    assert tens[..0] == [];
    assert s[..1] == tens;
    DigitRoundTrip(n / 10);
    DigitRoundTrip(n % 10);
    assert DigitsValue(tens) == n / 10;
    s
  }

  /** `format_time`: the timestamp is cast to `i64` and printed as the UTC
      hour and minute `HH:MM`; `None` where chrono has no such date. */
  function FormatTime(timestamp: U64): (r: Option<string>)
    ensures r.Some? <==> MinTimestamp <= I64FromU64(timestamp) <= MaxTimestamp
    ensures r.Some? ==> |r.value| == 5 && r.value[2] == ':' && AllDigits(r.value[..2]) && AllDigits(r.value[3..])
  {
    var secs := I64FromU64(timestamp);
    if secs < MinTimestamp || MaxTimestamp < secs then None
    else
      var secondOfDay := secs % SecondsPerDay;
      var s := Pad2(secondOfDay / 3600) + ":" + Pad2(secondOfDay % 3600 / 60);
      assert s[..2] == Pad2(secondOfDay / 3600) && s[3..] == Pad2(secondOfDay % 3600 / 60);
      Some(s)
  }

  /** The printed time reads back as an hour and a minute of the UTC day that
      contain the instant, for instants before 1970 too. */
  lemma FormatTimeReadsBack(timestamp: U64)
    requires FormatTime(timestamp).Some?
    ensures var s := FormatTime(timestamp).value;
      var hour := DigitsValue(s[..2]);
      var minute := DigitsValue(s[3..]);
      && hour < 24 && minute < 60
      && hour * 3600 + minute * 60 <= I64FromU64(timestamp) % SecondsPerDay < hour * 3600 + minute * 60 + 60
      && hour == I64FromU64(timestamp) / 3600 % 24
      && minute == I64FromU64(timestamp) / 60 % 60
  {
    var secondOfDay := I64FromU64(timestamp) % SecondsPerDay;
    var s := FormatTime(timestamp).value;
    assert s[..2] == Pad2(secondOfDay / 3600);
    assert s[3..] == Pad2(secondOfDay % 3600 / 60);
    DayClock(I64FromU64(timestamp));
  }

  /** The hour and minute of the day agree with whole hours and whole minutes
      since the epoch, taken modulo a day and an hour. */
  lemma DayClock(t: int)
    ensures t % SecondsPerDay / 3600 == t / 3600 % 24
    ensures t % SecondsPerDay % 3600 / 60 == t / 60 % 60
  {
    var d, sec := t / SecondsPerDay, t % SecondsPerDay;
    var h, rest := sec / 3600, sec % 3600;
    var m, u := rest / 60, rest % 60;
    assert sec == h * 3600 + rest && 0 <= h < 24;
    assert rest == m * 60 + u && 0 <= m < 60;
    var hours := d * 24 + h;
    var minutes := hours * 60 + m;
    assert t == hours * 3600 + rest;
    assert t / 3600 == hours;
    assert hours % 24 == h;
    assert t == minutes * 60 + u;
    assert t / 60 == minutes;
    assert minutes % 60 == m;
  }

  /** Row `idx` of a group as `render_message_row` draws it. */
  function RowLayout(style: MessageStyle, group: EventGroup, idx: nat): (row: Row)
    requires idx < |group.events|
    ensures row.side == Side(style, group) && !row.trailingGap
    ensures row.bubble.text == group.events[idx].kind.text
    ensures row.bubble.name.Some? <==> !group.fromSelf && idx == 0
    ensures group.fromSelf ==> row.leading == NoLeading
  {
    var (isFirst, isLast) := RowFlags(|group.events|, idx);
    var event := group.events[idx];
    var bubble := Bubble(
      group.fromSelf,
      BubbleRounding(style, group.fromSelf, isFirst, isLast),
      if !group.fromSelf && isFirst then Some(group.displayName) else None,
      event.kind.text,
      FormatTime(event.timestamp));
    match Side(style, group)
    case Right => Row(Right, NoLeading, bubble, !group.fromSelf)
    case Left =>
      var leading :=
        if group.fromSelf then NoLeading
        else if isLast && group.avatar.Some? then AvatarImage("user-avatar-" + group.userId, group.avatar.value, style.avatarSize)
        else Spacer(style.avatarSize + AvatarGap);
      Row(Left, leading, bubble, false)
  }

  /** `show`: one row per event, in order. Other senders' rows are on the
      left, their name over the first bubble only and their avatar (or a
      spacer when there is none) beside the last one only, earlier rows
      indented by a spacer of the avatar's width; this account's rows have no
      name and no avatar column. */
  function GroupLayout(style: MessageStyle, group: EventGroup): (rows: seq<Row>)
    ensures |rows| == |group.events|
    ensures forall i :: 0 <= i < |rows| ==>
      && rows[i].bubble.text == group.events[i].kind.text
      && rows[i].bubble.time == FormatTime(group.events[i].timestamp)
      && rows[i].bubble.selfColours == group.fromSelf
      && rows[i].side == Side(style, group)
      && !rows[i].trailingGap
    ensures forall i :: 0 <= i < |rows| ==>
      rows[i].bubble.rounding == BubbleRounding(style, group.fromSelf, i == 0, i + 1 == |rows|)
    ensures forall i :: 0 <= i < |rows| ==>
      (rows[i].bubble.name.Some? <==> !group.fromSelf && i == 0)
    ensures forall i :: 0 <= i < |rows| && rows[i].bubble.name.Some? ==> rows[i].bubble.name.value == group.displayName
    ensures group.fromSelf ==> forall i :: 0 <= i < |rows| ==> rows[i].leading == NoLeading
    ensures !group.fromSelf ==> forall i :: 0 <= i < |rows| - 1 ==> rows[i].leading == Spacer(style.avatarSize + AvatarGap)
    ensures !group.fromSelf && |rows| > 0 ==>
      rows[|rows| - 1].leading == (if group.avatar.Some? then AvatarImage("user-avatar-" + group.userId, group.avatar.value, style.avatarSize)
                                   else Spacer(style.avatarSize + AvatarGap))
  {
    seq(|group.events|, i requires 0 <= i < |group.events| => RowLayout(style, group, i))
  }

  /** Consecutive bubbles of a group meet at small corners on the sender's
      edge, while the group's outer top and bottom corners are full. */
  lemma GroupCornersJoin(style: MessageStyle, group: EventGroup, i: nat)
    requires i + 1 < |group.events|
    ensures var rows := GroupLayout(style, group);
      var m := Mirrored(style, group.fromSelf);
      && (if m then rows[i].bubble.rounding.se else rows[i].bubble.rounding.sw) == SmallRadius
      && (if m then rows[i + 1].bubble.rounding.ne else rows[i + 1].bubble.rounding.nw) == SmallRadius
      && (if m then rows[0].bubble.rounding.ne else rows[0].bubble.rounding.nw) == style.cornerRadius
      && (if m then rows[|rows| - 1].bubble.rounding.se else rows[|rows| - 1].bubble.rounding.sw) == style.cornerRadius
  {
    var rows := GroupLayout(style, group);
    assert rows[i] == RowLayout(style, group, i);
    assert rows[i + 1] == RowLayout(style, group, i + 1);
    assert rows[0] == RowLayout(style, group, 0);
    assert rows[|rows| - 1] == RowLayout(style, group, |rows| - 1);
  }
}
