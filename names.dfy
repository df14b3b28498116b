/** The text the game shows: player names as entered on the name screen, and
    the message of the result dialog. */
module Names {
  import opened Wrappers

  const DefaultPlayerOne: string := "Player 1"
  const DefaultPlayerTwo: string := "Player 2"

  /** The name handed to the result dialog when the board fills with no winner. */
  const NoOne: string := "No one"

  const DrawMessage: string := "It's a draw!"
  const WinsSuffix: string := " wins!"

  /** The characters Java's `String.trim` removes: every code point up to and
      including the space. */
  predicate Blank(ch: char)
  {
    ch <= ' '
  }

  /** Number of blanks at the start of `s`: the index of its first non-blank
      character, or `|s|` when there is none. */
  function LeadingBlanks(s: string): (k: nat)
    ensures k <= |s|
    ensures forall i :: 0 <= i < k ==> Blank(s[i])
    ensures k < |s| ==> !Blank(s[k])
  {
    if s != [] && Blank(s[0]) then 1 + LeadingBlanks(s[1..]) else 0
  }

  /** Where `s[lo..hi]` ends once its trailing blanks are cut off. */
  function TrimmedEnd(s: string, lo: nat, hi: nat): (m: nat)
    requires lo <= hi <= |s|
    ensures lo <= m <= hi
    ensures forall i :: m <= i < hi ==> Blank(s[i])
    ensures lo < m ==> !Blank(s[m - 1])
    decreases hi
  {
    if lo < hi && Blank(s[hi - 1]) then TrimmedEnd(s, lo, hi - 1) else hi
  }

  /** Java's `String.trim`: the text between the first and the last non-blank
      character; empty exactly when the whole text is blank. */
  function Trim(s: string): (r: string)
    // The result is a slice of the text, and everything before and after it is blank.
    ensures var k := LeadingBlanks(s);
      && k + |r| <= |s| && r == s[k..k + |r|]
      && (forall i :: 0 <= i < k ==> Blank(s[i]))
      && (forall i :: k + |r| <= i < |s| ==> Blank(s[i]))
    ensures r == [] <==> forall i :: 0 <= i < |s| ==> Blank(s[i])
    ensures r != [] ==> !Blank(r[0]) && !Blank(r[|r| - 1])
  {
    var k := LeadingBlanks(s);
    var m := TrimmedEnd(s, k, |s|);
    assert m > k ==> s[k..m][0] == s[k] && s[k..m][m - k - 1] == s[m - 1];
    s[k..m]
  }

  /** A text with no blank at either end is left as it is. */
  lemma {:induction false} TrimOfTrimmed(s: string)
    requires s == [] || (!Blank(s[0]) && !Blank(s[|s| - 1]))
    ensures Trim(s) == s
  {
    if s != [] {
      assert LeadingBlanks(s) == 0;
      assert TrimmedEnd(s, 0, |s|) == |s|;
    }
  }

  /** Trimming twice is trimming once. */
  lemma TrimIdempotent(s: string)
    ensures Trim(Trim(s)) == Trim(s)
  {
    TrimOfTrimmed(Trim(s));
  }

  /** The name a player gets from the text entered in the name field: the
      trimmed text, or `fallback` if nothing but blanks was entered. */
  function PlayerName(text: string, fallback: string): (name: string)
    ensures (forall i :: 0 <= i < |text| ==> Blank(text[i])) ==> name == fallback
    ensures (exists i :: 0 <= i < |text| && !Blank(text[i])) ==> name == Trim(text) && name != []
  {
    if Trim(text) == [] then fallback else Trim(text)
  }

  /** With a default that is itself a proper name (like "Player 1"), a player
      name is never blank and never starts or ends with a blank. */
  lemma PlayerNameIsTrimmed(text: string, fallback: string)
    requires fallback != [] && !Blank(fallback[0]) && !Blank(fallback[|fallback| - 1])
    ensures var name := PlayerName(text, fallback);
      name != [] && !Blank(name[0]) && !Blank(name[|name| - 1])
  {
  }

  /** Entering a player's name as it is shown yields that same name again. */
  lemma PlayerNameStable(text: string, fallback: string)
    requires fallback != [] && !Blank(fallback[0]) && !Blank(fallback[|fallback| - 1])
    ensures PlayerName(PlayerName(text, fallback), fallback) == PlayerName(text, fallback)
  {
    var name := PlayerName(text, fallback);
    PlayerNameIsTrimmed(text, fallback);
    TrimOfTrimmed(name);
  }

  /** The two default names are proper names in this sense. */
  lemma DefaultsAreTrimmed()
    ensures DefaultPlayerOne != [] && !Blank(DefaultPlayerOne[0]) && !Blank(DefaultPlayerOne[|DefaultPlayerOne| - 1])
    ensures DefaultPlayerTwo != [] && !Blank(DefaultPlayerTwo[0]) && !Blank(DefaultPlayerTwo[|DefaultPlayerTwo| - 1])
  {
  }

  /** The text of the result dialog for the name handed to it. */
  function ResultMessage(name: string): (msg: string)
    ensures name == NoOne ==> msg == DrawMessage
    ensures name != NoOne ==> |msg| == |name| + |WinsSuffix| && msg[..|name|] == name && msg[|name|..] == WinsSuffix
  {
    if name == NoOne then DrawMessage else name + WinsSuffix
  }

  /** Reads the name back out of a result message; `None` for text that no
      result dialog shows. */
  function AnnouncedName(msg: string): Option<string>
  {
    if msg == DrawMessage then Some(NoOne)
    else if |msg| >= |WinsSuffix| && msg[|msg| - |WinsSuffix|..] == WinsSuffix then Some(msg[..|msg| - |WinsSuffix|])
    else None
  }

  /** A win message never reads as the draw message: its last letters are
      "wins!", not "draw!". */
  lemma WinMessageIsNotDraw(name: string)
    ensures name + WinsSuffix != DrawMessage
  {
    var msg := name + WinsSuffix;
    if |msg| == |DrawMessage| {
      assert msg[|msg| - 2] == 's' != DrawMessage[|DrawMessage| - 2];
    }
  }

  /** Every result message determines the name it was made from. */
  lemma ResultMessageRoundTrip(name: string)
    ensures AnnouncedName(ResultMessage(name)) == Some(name)
  {
    if name != NoOne {
      var msg := name + WinsSuffix;
      WinMessageIsNotDraw(name);
      assert msg[|msg| - |WinsSuffix|..] == WinsSuffix;
      assert msg[..|msg| - |WinsSuffix|] == name;
    }
  }

  /** Different names give different messages; in particular the draw message
      is shown for exactly one name, "No one", so a player who entered
      "No one" as their name and wins is announced as a draw. */
  lemma ResultMessageInjective(a: string, b: string)
    ensures ResultMessage(a) == ResultMessage(b) <==> a == b
    ensures ResultMessage(a) == DrawMessage <==> a == NoOne
  {
    ResultMessageRoundTrip(a);
    ResultMessageRoundTrip(b);
    WinMessageIsNotDraw(a);
  }
}
