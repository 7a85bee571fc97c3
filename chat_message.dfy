/** The per-message display logic of the ChatMessages component: the 12-hour time label
    and the sent/received decision. */
module ChatMessage {
  import opened Wrappers
  import opened Text
  import opened Entities

  /** The local wall-clock reading of a timestamp, as `getHours()` and `getMinutes()` give it. */
  datatype ClockTime = ClockTime(hours: nat, minutes: nat)

  predicate ValidClock(t: ClockTime) {
    t.hours < 24 && t.minutes < 60
  }

  /** `hours % 12`, with 0 shown as 12. */
  function TwelveHour(hours: nat): nat {
    var h := hours % 12;
    if h == 0 then 12 else h
  }

  function Meridiem(hours: nat): string {
    if hours >= 12 then "pm" else "am"
  }

  /** Minutes below ten get a leading zero; the others are printed as they are. */
  function MinutesText(minutes: nat): string {
    if minutes < 10 then "0" + Decimal(minutes) else Decimal(minutes)
  }

  /** `getMessageTime` on a valid date: `h:mm am|pm`, the hour unpadded in 1..12, the
      minutes always two digits, "pm" exactly from noon on. */
  function MessageTime(t: ClockTime): (r: string)
    requires ValidClock(t)
    ensures 7 <= |r| <= 8
    ensures r[|r| - 6] == ':' && r[|r| - 3] == ' '
    ensures r[0] != '0'
    ensures AllDigits(r[..|r| - 6]) && AllDigits(r[|r| - 5..|r| - 3])
    ensures 1 <= DecimalValue(r[..|r| - 6]) <= 12
    ensures DecimalValue(r[..|r| - 6]) % 12 == t.hours % 12
    ensures DecimalValue(r[|r| - 5..|r| - 3]) == t.minutes
    ensures r[|r| - 2..] == "pm" <==> t.hours >= 12
    ensures r[|r| - 2..] == "am" <==> t.hours < 12
  {
    var hour := Decimal(TwelveHour(t.hours));
    var minutes := MinutesText(t.minutes);
    var r := hour + ":" + minutes + " " + Meridiem(t.hours);
    HourText(t.hours);
    MinutesTwoDigits(t.minutes);
    LabelParts(hour, minutes, Meridiem(t.hours));
    r
  }

  /** The hour part: one or two digits without a leading zero, worth 1..12, congruent to
      the hour modulo 12. */
  lemma HourText(hours: nat)
    ensures var s := Decimal(TwelveHour(hours));
      && 1 <= |s| <= 2 && s[0] != '0' && AllDigits(s)
      && 1 <= DecimalValue(s) <= 12 && DecimalValue(s) % 12 == hours % 12
  {
    var h := TwelveHour(hours);
    DecimalWidth(h);
    DecimalRoundTrip(h);
    if h >= 10 {
      assert Decimal(h)[0] == Decimal(h / 10)[0];
    }
  }

  /** The minutes part: exactly two digits, worth the minutes. */
  lemma MinutesTwoDigits(minutes: nat)
    requires minutes < 60
    ensures |MinutesText(minutes)| == 2 && AllDigits(MinutesText(minutes))
    ensures DecimalValue(MinutesText(minutes)) == minutes
  {
    DecimalWidth(minutes);
    DecimalRoundTrip(minutes);
    if minutes < 10 {
      assert MinutesText(minutes)[..1] == "0";
    }
  }

  /** Where the parts of a label sit when the minutes and the suffix take two characters each. */
  lemma LabelParts(hour: string, minutes: string, suffix: string)
    requires |minutes| == 2 && |suffix| == 2
    ensures var r := hour + ":" + minutes + " " + suffix;
      && |r| == |hour| + 6
      && r[..|r| - 6] == hour && r[|r| - 6] == ':'
      && r[|r| - 5..|r| - 3] == minutes && r[|r| - 3] == ' '
      && r[|r| - 2..] == suffix
      && (hour != [] ==> r[0] == hour[0])
  {
    var r := hour + ":" + minutes + " " + suffix;
    assert r[..|r| - 6] == hour;
    assert r[|r| - 5..|r| - 3] == minutes;
    assert r[|r| - 2..] == suffix;
  }

  /** The label the component renders: an unparsable timestamp makes `getHours()` NaN, which
      the `hours ? hours : 12` step turns into 12 and the minutes test leaves as NaN, so the
      `"Invalid Time"` fallback is never produced. */
  function TimeLabel(t: Option<ClockTime>): (r: string)
    requires t.Some? ==> ValidClock(t.value)
    ensures t.None? ==> r == "12:NaN am"
    ensures r != "Invalid Time"
  {
    match t
    case Some(c) => MessageTime(c)
    case None => "12:NaN am"
  }

  /** Reads a time label back: the inverse of `MessageTime`. */
  function ReadMessageTime(s: string): Option<ClockTime> {
    if |s| < 7 || |s| > 8 then None
    else
      var h12 := DecimalValue(s[..|s| - 6]);
      var m := DecimalValue(s[|s| - 5..|s| - 3]);
      if h12 < 1 || h12 > 12 || m < 0 || m >= 60 then None
      else
        var base := if h12 == 12 then 0 else h12;
        Some(ClockTime(if s[|s| - 2..] == "pm" then base + 12 else base, m))
  }

  /** The label determines the clock reading it was made from. */
  lemma MessageTimeRoundTrip(t: ClockTime)
    requires ValidClock(t)
    ensures ReadMessageTime(MessageTime(t)) == Some(t)
  {
  }

  /** Distinct readings give distinct labels. */
  lemma MessageTimeInjective(a: ClockTime, b: ClockTime)
    requires ValidClock(a) && ValidClock(b)
    ensures MessageTime(a) == MessageTime(b) ==> a == b
  {
    MessageTimeRoundTrip(a);
    MessageTimeRoundTrip(b);
  }

  /** How one message is drawn: aligned as sent or received, with the sender's name above
      received messages only. */
  datatype Bubble = Bubble(sent: bool, senderLabel: Option<string>, text: string)

  /** `isSent = message.sender === user.username`; `user.username` is undefined until the
      profile has loaded, and then no message with a sender is drawn as sent. */
  function RenderMessage(m: Message, user: User): (b: Bubble)
    ensures b.sent <==> user.username == Some(m.sender)
    ensures b.senderLabel.Some? <==> !b.sent
    ensures b.senderLabel.Some? ==> b.senderLabel.value == m.sender
    ensures b.text == m.text
  {
    var sent := user.username.Some? && user.username.value == m.sender;
    Bubble(sent, if sent then None else Some(m.sender), m.text)
  }
}
