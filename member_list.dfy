/** The participants panel: each member's initials, colour and presence, and the count
    in its header. */
module MemberList {
  import opened Wrappers
  import opened Text
  import opened Entities

  /** `s.split(" ")`: consecutive or edge spaces produce empty words. */
  function Split(s: string): (words: seq<string>)
    ensures |words| >= 1
  {
    if s == [] then [""]
    else
      var rest := Split(s[1..]);
      if s[0] == ' ' then [""] + rest else [[s[0]] + rest[0]] + rest[1..]
  }

  /** `words.join(" ")`, the inverse of `Split`. */
  function JoinWords(words: seq<string>): string
    requires |words| >= 1
  {
    if |words| == 1 then words[0] else words[0] + " " + JoinWords(words[1..])
  }

  /** Splitting on spaces loses nothing and leaves no space inside a word. */
  lemma {:induction false} SplitRoundTrip(s: string)
    ensures JoinWords(Split(s)) == s
    ensures forall k :: 0 <= k < |Split(s)| ==> ' ' !in Split(s)[k]
  {
    if s != [] {
      SplitRoundTrip(s[1..]);
      var rest := Split(s[1..]);
      if s[0] == ' ' {
        assert Split(s)[1..] == rest;
      } else {
        var words := Split(s);
        assert words[1..] == rest[1..];
        if |rest| > 1 {
          assert rest[1..] == rest[1..];
          assert JoinWords(words) == [s[0]] + (rest[0] + " " + JoinWords(rest[1..]));
        }
        forall k | 0 <= k < |words|
          ensures ' ' !in words[k]
        {
          if k > 0 {
            assert words[k] == rest[k];
          }
        }
      }
    }
  }

  /** `map(n => n[0]).join("")`: the first character of each word; an empty word's `n[0]` is
      undefined, which `join` writes as nothing. */
  function FirstChars(words: seq<string>): (r: string)
    ensures |r| <= |words|
  {
    if words == [] then ""
    else (if words[0] == "" then "" else [words[0][0]]) + FirstChars(words[1..])
  }

  /** `getInitials(name)`; an undefined name stays undefined. */
  function GetInitials(name: Option<string>): (r: Option<string>)
    ensures r.Some? <==> name.Some?
    ensures name.Some? ==> |r.value| <= |Split(name.value)|
  {
    match name
    case None => None
    case Some(s) => Some(ToUpper(FirstChars(Split(s))))
  }

  /** An independent reading of the initials: scan the name once and keep every non-space
      character that starts the name or follows a space. */
  function WordStarts(s: string, atStart: bool): string {
    if s == [] then ""
    else if s[0] == ' ' then WordStarts(s[1..], true)
    else (if atStart then [s[0]] else "") + WordStarts(s[1..], false)
  }

  lemma {:induction false} FirstCharsAreWordStarts(s: string)
    ensures FirstChars(Split(s)) == WordStarts(s, true)
    ensures FirstChars(Split(s)[1..]) == WordStarts(s, false)
  {
    if s != [] {
      FirstCharsAreWordStarts(s[1..]);
      var rest := Split(s[1..]);
      if s[0] == ' ' {
        assert Split(s) == [""] + rest;
        assert Split(s)[1..] == rest;
      } else {
        var words := Split(s);
        assert words[1..] == rest[1..];
        assert FirstChars(words) == [s[0]] + FirstChars(words[1..]);
        assert FirstChars(rest) == (if rest[0] == "" then "" else [rest[0][0]]) + FirstChars(rest[1..]);
      }
    }
  }

  /** The initials are the upper-cased first letters of the words, by the scan reading. */
  lemma InitialsAreWordStarts(s: string)
    ensures GetInitials(Some(s)) == Some(ToUpper(WordStarts(s, true)))
  {
    FirstCharsAreWordStarts(s);
  }

  /** The typing indicator wins over the online one. */
  datatype Presence = Typing | Online | Offline

  function Status(id: UserId, online: set<UserId>, typing: set<UserId>): (p: Presence)
    ensures p == Typing <==> id in typing
    ensures p == Online <==> id !in typing && id in online
    ensures p == Offline <==> id !in typing && id !in online
  {
    if id in typing then Typing else if id in online then Online else Offline
  }

  function StatusText(p: Presence): string {
    match p
    case Typing => "Typing..."
    case Online => "Online"
    case Offline => "Offline"
  }

  /** One rendered member: avatar initials and colour, name, status line and online dot. */
  datatype Row = Row(initials: Option<string>, name: Option<string>, colour: string, status: string, onlineDot: bool)

  function RowFor(m: Member, colour: string, online: set<UserId>, typing: set<UserId>): (r: Row)
    ensures r.onlineDot <==> m.id in online
    ensures r.status == "Typing..." <==> m.id in typing
    ensures r.status == "Online" <==> m.id !in typing && m.id in online
    ensures r.status == "Offline" <==> m.id !in typing && m.id !in online
    ensures r.initials == GetInitials(m.username) && r.colour == colour
  {
    Row(GetInitials(m.username), m.username, colour, StatusText(Status(m.id, online, typing)), m.id in online)
  }

  /** `selectedRoom?.members?.length || 0` */
  function ParticipantCount(room: Option<Room>): (n: nat)
    ensures room.None? ==> n == 0
    ensures room.Some? ==> n == |room.value.members|
  {
    if room.Some? then |room.value.members| else 0
  }

  /** The ids of a member list. */
  function MemberIds(ms: seq<Member>): set<UserId> {
    if ms == [] then {} else MemberIds(ms[..|ms| - 1]) + {ms[|ms| - 1].id}
  }

  /** The rows of a member list, each drawn with the colour the cache holds for it. */
  function RowsFor(ms: seq<Member>, colors: map<UserId, string>, online: set<UserId>, typing: set<UserId>): seq<Row>
    requires MemberIds(ms) <= colors.Keys
  {
    if ms == [] then []
    else
      var m := ms[|ms| - 1];
      RowsFor(ms[..|ms| - 1], colors, online, typing) + [RowFor(m, colors[m.id], online, typing)]
  }

  /** Row `i` shows member `i` with that member's cached colour. */
  lemma {:induction false} RowsForAt(ms: seq<Member>, colors: map<UserId, string>, online: set<UserId>, typing: set<UserId>, i: nat)
    requires MemberIds(ms) <= colors.Keys && i < |ms|
    ensures ms[i].id in colors
    ensures |RowsFor(ms, colors, online, typing)| == |ms|
    ensures RowsFor(ms, colors, online, typing)[i] == RowFor(ms[i], colors[ms[i].id], online, typing)
  {
    var init := ms[..|ms| - 1];
    if i < |ms| - 1 {
      RowsForAt(init, colors, online, typing, i);
    } else if init != [] {
      RowsForAt(init, colors, online, typing, 0);
    }
  }

  /** Rows depend only on the colours of the members drawn. */
  lemma {:induction false} RowsForFrame(ms: seq<Member>, c1: map<UserId, string>, c2: map<UserId, string>, online: set<UserId>, typing: set<UserId>)
    requires MemberIds(ms) <= c1.Keys && MemberIds(ms) <= c2.Keys
    requires forall id :: id in MemberIds(ms) ==> c1[id] == c2[id]
    ensures RowsFor(ms, c1, online, typing) == RowsFor(ms, c2, online, typing)
  {
    if ms != [] {
      RowsForFrame(ms[..|ms| - 1], c1, c2, online, typing);
    }
  }

  /** One more member drawn: its id joins the ids seen and its row follows the earlier rows,
      which colours assigned meanwhile to new ids leave as they were. */
  lemma RowsForStep(ms: seq<Member>, i: nat, before: map<UserId, string>, after: map<UserId, string>,
                    online: set<UserId>, typing: set<UserId>)
    requires i < |ms| && MemberIds(ms[..i]) <= before.Keys && ms[i].id in after
    requires forall id :: id in before ==> id in after && after[id] == before[id]
    ensures MemberIds(ms[..i + 1]) == MemberIds(ms[..i]) + {ms[i].id}
    ensures MemberIds(ms[..i + 1]) <= after.Keys
    ensures RowsFor(ms[..i + 1], after, online, typing)
         == RowsFor(ms[..i], before, online, typing) + [RowFor(ms[i], after[ms[i].id], online, typing)]
  {
    assert ms[..i + 1][..i] == ms[..i];
    RowsForFrame(ms[..i], before, after, online, typing);
  }

  const Palette: seq<string> := [
    "#FF9AA2", "#A29BFE", "#70C1B3", "#FFB347", "#CBAACB",
    "#B39EB5", "#A3D2CA", "#F6C6EA", "#E6B89C", "#FF968A",
    "#C3B1E1", "#D4A5A5", "#B5CDA3", "#A8C5DA", "#C0A9BD"
  ]

  /** `c` is one of the palette's entries. */
  predicate InPalette(c: string) {
    exists k :: 0 <= k < |Palette| && Palette[k] == c
  }

  /** The `memberColors` ref of one mounted member panel: a colour per member id, drawn from
      the palette the first time the member is rendered and kept for every later render of
      that panel. Each mounted panel has its own ref, so a panel that is mounted afresh starts
      from an empty cache and draws its colours anew. */
  class MemberColors {
    var colors: map<UserId, string>

    ghost predicate Valid()
      reads this
    {
      forall id :: id in colors ==> InPalette(colors[id])
    }

    constructor ()
      ensures Valid() && colors == map[]
    {
      colors := map[];
    }

    /** The first render of `id` picks any palette entry (the source picks at random);
        later renders read the stored one. */
    method ColourOf(id: UserId) returns (c: string)
      requires Valid()
      modifies this`colors
      ensures Valid()
      ensures id in old(colors) ==> colors == old(colors) && c == old(colors)[id]
      ensures id !in old(colors) ==> InPalette(c) && colors == old(colors)[id := c]
    {
      if id !in colors {
        var pick :| 0 <= pick < |Palette|;
        colors := colors[id := Palette[pick]];
      }
      c := colors[id];
    }

    /** The member rows of one render, in member order. Colours already assigned never
        change; the members drawn get one if they had none. */
    method DrawRows(members: seq<Member>, online: set<UserId>, typing: set<UserId>) returns (rows: seq<Row>)
      requires Valid()
      modifies this`colors
      ensures Valid()
      ensures forall id :: id in old(colors) ==> id in colors && colors[id] == old(colors)[id]
      ensures colors.Keys == old(colors).Keys + MemberIds(members)
      ensures rows == RowsFor(members, colors, online, typing)
    {
      rows := [];
      var i := 0;
      while i < |members|
        invariant 0 <= i <= |members|
        invariant Valid()
        invariant forall id :: id in old(colors) ==> id in colors && colors[id] == old(colors)[id]
        invariant colors.Keys == old(colors).Keys + MemberIds(members[..i])
        invariant rows == RowsFor(members[..i], colors, online, typing)
      {
        ghost var before := colors;
        var c := ColourOf(members[i].id);
        RowsForStep(members, i, before, colors, online, typing);
        rows := rows + [RowFor(members[i], c, online, typing)];
        i := i + 1;
      }
      assert members[..i] == members;
    }

    /** One render of the panel: the header count and a row per member of the selected room. */
    method Render(room: Option<Room>, online: set<UserId>, typing: set<UserId>) returns (count: nat, rows: seq<Row>)
      requires Valid()
      modifies this`colors
      ensures Valid()
      ensures count == ParticipantCount(room)
      ensures room.None? ==> rows == [] && colors == old(colors)
      ensures forall id :: id in old(colors) ==> id in colors && colors[id] == old(colors)[id]
      ensures room.Some? ==> colors.Keys == old(colors).Keys + MemberIds(room.value.members)
      ensures room.Some? ==> rows == RowsFor(room.value.members, colors, online, typing)
    {
      count := ParticipantCount(room);
      rows := [];
      if room.Some? {
        rows := DrawRows(room.value.members, online, typing);
      }
    }
  }
}
