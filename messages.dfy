/** The text the chat server writes to connections: the name prompt, the join
    and leave announcements and the chat line. Each formatter is paired with a
    parser that recovers its fields, which shows what a recipient can read
    back from the wire. */
module Messages {
  import opened Colours

  datatype Option<T> = None | Some(value: T)

  /** Written to a new connection before its first line is read. */
  const PromptText: string := "Enter your name: "

  const Banner: string := "*** "
  const JoinTail: string := " joined the chat ***\n"
  const LeaveTail: string := " left the chat ***\n"
  const Separator: string := ": "

  /** The join announcement: in a palette colour it reads back as exactly
      that colour and name. */
  function JoinMessage(colour: string, name: string): (m: string)
    ensures colour in Palette() ==> ParseJoin(m) == Some((colour, name))
  {
    var m := Banner + colour + name + Reset() + JoinTail;
    AnnouncementIff(m, JoinTail, colour, name);
    m
  }

  /** The leave announcement: in a palette colour it reads back as exactly
      that colour and name. */
  function LeaveMessage(colour: string, name: string): (m: string)
    ensures colour in Palette() ==> ParseLeave(m) == Some((colour, name))
  {
    var m := Banner + colour + name + Reset() + LeaveTail;
    AnnouncementIff(m, LeaveTail, colour, name);
    m
  }

  /** The chat line: in a palette colour and with an ESC-free name it reads
      back as exactly that colour, name and text. */
  function ChatMessage(colour: string, name: string, text: string): (m: string)
    ensures colour in Palette() && Esc !in name ==> ParseChat(m) == Some((colour, name, text))
  {
    var m := colour + name + Reset() + Separator + text + "\n";
    ChatReadsBack(m, colour, name, text);
    m
  }

  /** Reads "*** " colour name reset tail back into (colour, name), where the
      colour is a palette entry. */
  function ParseAnnouncement(m: string, tail: string): (r: Option<(string, string)>)
    ensures r.Some? ==> r.value.0 in Palette() && m == Banner + r.value.0 + r.value.1 + Reset() + tail
  {
    if |m| < |Banner| + 5 + |Reset()| + |tail| || m[..4] != Banner then None
    else
      var end := |m| - |Reset()| - |tail|;
      var colour := m[4..9];
      var name := m[9..end];
      if colour in Palette() && m[end..] == Reset() + tail then
        assert m == m[..4] + m[4..9] + m[9..end] + m[end..];
        Some((colour, name))
      else None
  }

  function ParseJoin(m: string): Option<(string, string)>
  {
    ParseAnnouncement(m, JoinTail)
  }

  function ParseLeave(m: string): Option<(string, string)>
  {
    ParseAnnouncement(m, LeaveTail)
  }

  /** The first index at or after `from` that holds ESC, or |s| if none does. */
  function FirstEsc(s: string, from: nat): (k: nat)
    requires from <= |s|
    ensures from <= k <= |s|
    ensures k < |s| ==> s[k] == Esc
    ensures forall j :: from <= j < k ==> s[j] != Esc
    decreases |s| - from
  {
    if from == |s| || s[from] == Esc then from else FirstEsc(s, from + 1)
  }

  /** Reads colour name reset ": " text "\n" back into (colour, name, text):
      the name ends at the first ESC after the colour. */
  function ParseChat(m: string): (r: Option<(string, string, string)>)
    ensures r.Some? ==> r.value.0 in Palette() && Esc !in r.value.1
                        && m == r.value.0 + r.value.1 + Reset() + Separator + r.value.2 + "\n"
  {
    if |m| < 5 + |Reset()| + |Separator| + 1 || m[..5] !in Palette() || m[|m| - 1] != '\n' then None
    else
      var k := FirstEsc(m, 5);
      if k + 6 <= |m| - 1 && m[k..k + 6] == Reset() + Separator then
        var name := m[5..k];
        assert Esc !in name by {
          forall j | 0 <= j < |name| ensures name[j] != Esc { assert name[j] == m[5 + j]; }
        }
        assert m == m[..5] + m[5..k] + m[k..k + 6] + m[k + 6..|m| - 1] + [m[|m| - 1]];
        Some((m[..5], name, m[k + 6..|m| - 1]))
      else None
  }

  lemma AnnouncementIff(m: string, tail: string, colour: string, name: string)
    ensures colour in Palette() ==>
              (ParseAnnouncement(m, tail) == Some((colour, name)) <==> m == Banner + colour + name + Reset() + tail)
  {
    if colour in Palette() && m == Banner + colour + name + Reset() + tail {
      var end := |m| - |Reset()| - |tail|;
      assert m[..4] == Banner;
      assert m[4..9] == colour;
      assert m[9..end] == name;
      assert m[end..] == Reset() + tail;
    }
  }

  /** A join announcement reads back as exactly the colour and name it was
      made from, and nothing else reads as one. */
  lemma JoinIff(m: string, colour: string, name: string)
    ensures ParseJoin(m) == Some((colour, name)) <==> colour in Palette() && m == JoinMessage(colour, name)
  {
    AnnouncementIff(m, JoinTail, colour, name);
  }

  lemma LeaveIff(m: string, colour: string, name: string)
    ensures ParseLeave(m) == Some((colour, name)) <==> colour in Palette() && m == LeaveMessage(colour, name)
  {
    AnnouncementIff(m, LeaveTail, colour, name);
  }

  /** A chat line whose name holds no ESC reads back as exactly its colour,
      name and text, and nothing else reads as one. */
  lemma ChatIff(m: string, colour: string, name: string, text: string)
    ensures ParseChat(m) == Some((colour, name, text))
            <==> colour in Palette() && Esc !in name && m == ChatMessage(colour, name, text)
  {
    ChatReadsBack(m, colour, name, text);
  }

  lemma ChatReadsBack(m: string, colour: string, name: string, text: string)
    ensures colour in Palette() && Esc !in name && m == colour + name + Reset() + Separator + text + "\n"
            ==> ParseChat(m) == Some((colour, name, text))
  {
    if colour in Palette() && Esc !in name && m == colour + name + Reset() + Separator + text + "\n" {
      var k := 5 + |name|;
      assert m[..5] == colour;
      assert m[k] == Esc;
      assert forall j :: 5 <= j < k ==> m[j] == name[j - 5];
      assert FirstEsc(m, 5) == k;
      assert m[k..k + 6] == Reset() + Separator;
      assert m[5..k] == name;
      assert m[k + 6..|m| - 1] == text;
    }
  }

  /** A name carrying the reset code and ": " makes two different (name, text)
      pairs write the same chat line, so the parse above needs ESC-free names. */
  lemma ChatAmbiguous(colour: string)
    ensures ChatMessage(colour, "a" + Reset() + Separator + "b", "c")
            == ChatMessage(colour, "a", "b" + Reset() + Separator + "c")
  {
  }

  /** Join and leave announcements never coincide: they differ 15 characters
      from the end ('d' of "joined" against 't' of "left"). */
  lemma JoinIsNotLeave(c1: string, n1: string, c2: string, n2: string)
    ensures JoinMessage(c1, n1) != LeaveMessage(c2, n2)
  {
    var j, l := JoinMessage(c1, n1), LeaveMessage(c2, n2);
    assert j[|j| - 15] == JoinTail[|JoinTail| - 15] == 'd';
    assert l[|l| - 15] == LeaveTail[|LeaveTail| - 15] == 't';
  }

  /** A chat line in a palette colour starts with ESC, an announcement with
      '*', so no chat line is mistaken for either announcement. */
  lemma ChatIsNotAnnouncement(colour: string, name: string, text: string, c2: string, n2: string)
    requires colour in Palette()
    ensures ChatMessage(colour, name, text) != JoinMessage(c2, n2)
    ensures ChatMessage(colour, name, text) != LeaveMessage(c2, n2)
  {
    assert ChatMessage(colour, name, text)[0] == colour[0] == Esc;
    assert JoinMessage(c2, n2)[0] == '*';
    assert LeaveMessage(c2, n2)[0] == '*';
  }
}
