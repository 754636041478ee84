/**
 * The plain-text front end of src/parser/plain_text.rs: a title line and a
 * blank line, then stanzas separated by blank lines, each optionally opened
 * by a `#c` or `#b` tag line.
 */
module PlainText {
  import opened Wrappers
  import opened Text
  import opened Songs
  import Lib

  /** The outcome of a nom parser on complete input: what is left and the value, or the input where it failed. */
  datatype IResult<T> = Done(rest: string, value: T) | Fail(input: string)

  /** The two errors `parse` reports. */
  datatype PlainTextError = InvalidTitle | InvalidTag

  /** nom's `take_until(pat)`: everything before the first occurrence of `pat`. */
  function TakeUntil(pat: string, s: string): (r: IResult<string>)
    ensures r.Done? <==> exists i :: OccursAt(s, pat, i)
    ensures r.Done? ==> s == r.value + r.rest && OccursAt(s, pat, |r.value|)
    ensures r.Done? ==> forall j :: 0 <= j < |r.value| ==> !OccursAt(s, pat, j)
    ensures r.Fail? ==> r.input == s
  {
    match FindFrom(s, pat, 0)
    case Some(i) => assert s == s[..i] + s[i..]; Done(s[i..], s[..i])
    case None => Fail(s)
  }

  /** nom's `tag(pat)`: `pat` itself at the start of the input. */
  function Tag(pat: string, s: string): (r: IResult<string>)
    ensures r.Done? <==> |pat| <= |s| && s[..|pat|] == pat
    ensures r.Done? ==> r.rest == s[|pat|..] && r.value == pat
    ensures r.Fail? ==> r.input == s
  {
    if |pat| <= |s| && s[..|pat|] == pat then Done(s[|pat|..], pat) else Fail(s)
  }

  /** nom's `take(1)`: one character. */
  function Take1(s: string): (r: IResult<string>)
    ensures r.Done? <==> |s| >= 1
    ensures r.Done? ==> r.value == [s[0]] && r.rest == s[1..]
  {
    if |s| >= 1 then Done(s[1..], s[..1]) else Fail(s)
  }

  lemma NewlineAt(s: string, i: nat)
    ensures OccursAt(s, "\n", i) <==> i < |s| && s[i] == '\n'
  {
    if i < |s| {
      assert s[i..i + 1] == [s[i]];
    }
  }

  /**
   * `match_name`: succeeds exactly when the first line break is followed by a
   * second one; the title is the text before it and both breaks are consumed.
   */
  function MatchName(s: string): (r: IResult<string>)
    ensures r.Done? <==> exists i :: 0 <= i < |s| - 1 && s[i] == '\n' && s[i + 1] == '\n' && '\n' !in s[..i]
    ensures r.Done? ==> |r.value| + 2 <= |s| && s[..|r.value|] == r.value && '\n' !in r.value
    ensures r.Done? ==> s[|r.value|] == '\n' && s[|r.value| + 1] == '\n' && r.rest == s[|r.value| + 2..]
  {
    match TakeUntil("\n", s)
    case Fail(e) =>
      assert forall i :: 0 <= i < |s| ==> s[i] != '\n' by {
        forall i | 0 <= i < |s| ensures s[i] != '\n' { NewlineAt(s, i); }
      }
      Fail(e)
    case Done(rest, name) =>
      NewlineAt(s, |name|);
      assert s[..|name|] == name;
      assert '\n' !in name by {
        forall j | 0 <= j < |name| ensures name[j] != '\n' { NewlineAt(s, j); }
      }
      match Tag("\n\n", rest)
      case Fail(e) =>
        assert !(|rest| >= 2 && rest[1] == '\n');
        Fail(e)
      case Done(rest2, _) =>
        assert rest[..2] == "\n\n";
        assert rest[1] == s[|name| + 1];
        Done(rest2, name)
  }

  /** `start_tag`: a stanza tag starts with `#`. */
  function StartTag(s: string): (r: IResult<string>)
    ensures r.Done? <==> |s| >= 1 && s[0] == '#'
    ensures r.Done? ==> r.rest == s[1..]
    ensures r.Fail? ==> r.input == s
  {
    var r := Tag("#", s);
    assert r.Done? <==> |s| >= 1 && s[0] == '#' by {
      if |s| >= 1 { assert s[..1] == [s[0]]; }
    }
    r
  }

  /**
   * `identify_tag`: one character, then a line break; `c` is a chorus, `b` a
   * bridge, and anything else, a missing break or an empty input fails.
   */
  function IdentifyTag(s: string): (r: IResult<StanzaType>)
    ensures r.Done? <==> |s| >= 2 && s[1] == '\n' && (s[0] == 'c' || s[0] == 'b')
    ensures r.Done? ==> r.rest == s[2..] && r.value == (if s[0] == 'c' then Chorus else Bridge)
  {
    match Take1(s)
    case Fail(e) => Fail(e)
    case Done(i, t) =>
      var nl := Tag("\n", i);
      assert nl.Done? <==> |s| >= 2 && s[1] == '\n' by {
        if |i| >= 1 { assert i[..1] == [s[1]]; }
      }
      match nl
      case Fail(e) => Fail(e)
      case Done(i2, _) =>
        assert i2 == s[2..];
        if t == "c" then Done(i2, Chorus)
        else if t == "b" then Done(i2, Bridge)
        else Fail(i2)
  }

  /**
   * `match_block`: the text before the first blank line, with the blank line
   * consumed; without one, the whole input and nothing left.
   */
  function MatchBlock(s: string): (r: (string, string))
    ensures |r.0| <= |s| && (s != "" ==> |r.0| < |s|)
    ensures (exists i :: OccursAt(s, "\n\n", i)) ==>
      s == r.1 + "\n\n" + r.0 && forall j :: 0 <= j < |r.1| ==> !OccursAt(s, "\n\n", j)
    ensures (forall i :: !OccursAt(s, "\n\n", i)) ==> r == ("", s)
  {
    match TakeUntil("\n\n", s)
    case Done(rest, stanza) =>
      var t := Tag("\n\n", rest);
      assert rest[..2] == s[|stanza|..|stanza| + 2];
      assert t.Done?;  // the `unwrap` after `take_until`
      assert s == stanza + "\n\n" + t.rest;
      (t.rest, stanza)
    case Fail(_) => ("", s)
  }

  /**
   * One pass of the stanza loop before the stanza is stored: the tag (if
   * any), then the block. A block not opened by `#` is a verse, and nothing
   * is consumed looking for its tag.
   */
  function NextStanza(s: string): (r: Result<(string, StanzaType, string), PlainTextError>)
    requires s != ""
    ensures r.Ok? ==> |r.value.0| < |s|
    ensures s[0] != '#' ==> r == Ok((MatchBlock(s).0, Verse, MatchBlock(s).1))
    ensures s[0] == '#' ==> (r.Err? <==> !IdentifyTag(s[1..]).Done?)
    ensures r.Err? ==> r.error == InvalidTag
    ensures s[0] == '#' && r.Ok? ==>
      && |s| >= 3
      && r == Ok((MatchBlock(s[3..]).0, if s[1] == 'c' then Chorus else Bridge, MatchBlock(s[3..]).1))
  {
    match StartTag(s)
    case Fail(e) =>
      var (rest, stanza) := MatchBlock(e);
      Ok((rest, Verse, stanza))
    case Done(i, _) =>
      match IdentifyTag(i)
      case Fail(_) => Err(InvalidTag)
      case Done(i2, t) =>
        var (rest, stanza) := MatchBlock(i2);
        Ok((rest, t, stanza))
  }

  /** What the loop has collected: the song's stanzas and the order built beside them. */
  datatype Progress = Progress(verses: seq<string>, chorus: Option<string>, bridge: Option<string>, order: string)

  /** Storing one stanza: a verse is appended, a chorus or bridge overwrites, and one letter joins the order. */
  function Add(p: Progress, t: StanzaType, stanza: string): (r: Progress)
    ensures r.verses == (if t == Verse then p.verses + [stanza] else p.verses)
    ensures r.chorus == (if t == Chorus then Some(stanza) else p.chorus)
    ensures r.bridge == (if t == Bridge then Some(stanza) else p.bridge)
    ensures r.order == p.order + [if t == Verse then 'v' else if t == Chorus then 'c' else 'b']
  {
    match t
    case Verse => p.(verses := p.verses + [stanza], order := p.order + "v")
    case Chorus => p.(chorus := Some(stanza), order := p.order + "c")
    case Bridge => p.(bridge := Some(stanza), order := p.order + "b")
  }

  /** The stanza loop, from `s` on, starting from what `p` has collected. */
  function Stanzas(s: string, p: Progress): Result<Progress, PlainTextError>
    decreases |s|
  {
    if s == "" then Ok(p)
    else
      match NextStanza(s)
      case Err(e) => Err(e)
      case Ok((rest, t, stanza)) => Stanzas(rest, Add(p, t, stanza))
  }

  const Nothing := Progress([], None, None, "")

  function SongOf(name: string, p: Progress): Lib.SongValue {
    Lib.SongValue(name, p.order, p.verses, p.chorus, p.bridge)
  }

  /** What `parse` yields for `input`. */
  function Parsed(input: string): Result<Lib.SongValue, PlainTextError> {
    match MatchName(input)
    case Fail(_) => Err(InvalidTitle)
    case Done(rest, name) =>
      match Stanzas(rest, Nothing)
      case Err(e) => Err(e)
      case Ok(p) => Ok(SongOf(name, p))
  }

  /**
   * The order tracks the stanzas: one `v` per verse, and a `c` (resp. `b`)
   * exactly when a chorus (resp. bridge) is set.
   */
  predicate Tracks(p: Progress) {
    && Count(p.order, 'v') == |p.verses|
    && ('c' in p.order <==> p.chorus.Some?)
    && ('b' in p.order <==> p.bridge.Some?)
  }

  lemma AddTracks(p: Progress, t: StanzaType, stanza: string)
    requires Tracks(p)
    ensures Tracks(Add(p, t, stanza))
  {
    var letter := match t case Verse => "v" case Chorus => "c" case Bridge => "b";
    CountAppend(p.order, letter, 'v');
    assert Add(p, t, stanza).order == p.order + letter;
    assert forall c :: c in p.order + letter <==> c in p.order || c == letter[0];
  }

  /** Every pass of the loop keeps the stanzas and the order in step. */
  lemma {:induction false} StanzasTrack(s: string, p: Progress)
    requires Tracks(p)
    ensures Stanzas(s, p).Ok? ==> Tracks(Stanzas(s, p).value)
    decreases |s|
  {
    if s != "" {
      match NextStanza(s)
      case Err(_) =>
      case Ok((rest, t, stanza)) =>
        AddTracks(p, t, stanza);
        StanzasTrack(rest, Add(p, t, stanza));
    }
  }

  /** A parsed song's order has one `v` per verse and names a chorus or bridge exactly when it has one. */
  lemma ParsedTracks(input: string)
    requires Parsed(input).Ok?
    ensures Count(Parsed(input).value.order, 'v') == |Parsed(input).value.verses|
    ensures 'c' in Parsed(input).value.order <==> Parsed(input).value.chorus.Some?
    ensures 'b' in Parsed(input).value.order <==> Parsed(input).value.bridge.Some?
  {
    StanzasTrack(MatchName(input).rest, Nothing);
  }

  /** Hence `set_order` accepts the order `parse` built: the `unwrap` on it cannot fail. */
  lemma SetOrderAcceptsParsed(input: string)
    requires Parsed(input).Ok?
    ensures var v := Parsed(input).value; Lib.OrderFits(v.order, v.chorus, v.bridge, |v.verses|)
  {
    ParsedTracks(input);
  }

  /** The stanza loop only ever fails on a tag. */
  lemma {:induction false} StanzasFailOnTag(s: string, p: Progress)
    ensures Stanzas(s, p).Err? ==> Stanzas(s, p).error == InvalidTag
    decreases |s|
  {
    if s != "" && NextStanza(s).Ok? {
      var (rest, t, stanza) := NextStanza(s).value;
      StanzasFailOnTag(rest, Add(p, t, stanza));
    }
  }

  /** `parse` reports an invalid title exactly when `match_name` fails, and otherwise only an invalid tag. */
  lemma ParsedErrors(input: string)
    ensures Parsed(input) == Err(InvalidTitle) <==> MatchName(input).Fail?
    ensures Parsed(input).Err? && MatchName(input).Done? ==> Parsed(input).error == InvalidTag
  {
    if MatchName(input).Done? {
      StanzasFailOnTag(MatchName(input).rest, Nothing);
    }
  }

  /** A `#c` or `#b` line opens the chorus or the bridge, read as a block from the next line on. */
  lemma TagLinesAccepted(rest: string)
    ensures NextStanza("#c\n" + rest) == Ok((MatchBlock(rest).0, Chorus, MatchBlock(rest).1))
    ensures NextStanza("#b\n" + rest) == Ok((MatchBlock(rest).0, Bridge, MatchBlock(rest).1))
  {
    var c, b := "#c\n" + rest, "#b\n" + rest;
    assert c[1..] == "c\n" + rest && c[1..][2..] == rest;
    assert b[1..] == "b\n" + rest && b[1..][2..] == rest;
  }

  /** `#v` is not a tag: a block opened that way stops the parse. */
  lemma VerseTagRejected(rest: string)
    ensures NextStanza("#v\n" + rest) == Err(InvalidTag)
  {
    var s := "#v\n" + rest;
    assert s[0] == '#' && s[1..][0] == 'v';
  }

  /**
   * `PlainText::parse`: the song `Parsed` describes, freshly allocated, or
   * the error it describes.
   */
  method Parse(input: string) returns (r: Result<Lib.Song, PlainTextError>)
    ensures r.Ok? <==> Parsed(input).Ok?
    ensures r.Ok? ==> fresh(r.value) && r.value.Value() == Parsed(input).value
    ensures r.Err? ==> r.error == Parsed(input).error
  {
    var title := MatchName(input);
    if title.Fail? {
      return Err(InvalidTitle);
    }
    var rest, name := title.rest, title.value;
    var song := new Lib.Song(name);
    var order := "";
    ghost var goal := Stanzas(rest, Nothing);
    assert Parsed(input) == if goal.Ok? then Ok(SongOf(name, goal.value)) else Err(goal.error);

    while rest != ""
      invariant fresh(song) && song.name == name && song.order == ""
      invariant Stanzas(rest, Progress(song.verses, song.chorus, song.bridge, order)) == goal
      invariant Tracks(Progress(song.verses, song.chorus, song.bridge, order))
      decreases |rest|
    {
      ghost var before := Progress(song.verses, song.chorus, song.bridge, order);
      var i: string, stanzaType: StanzaType;
      var tag := StartTag(rest);
      if tag.Done? {
        var id := IdentifyTag(tag.rest);
        if id.Fail? {
          assert NextStanza(rest) == Err(InvalidTag);
          return Err(InvalidTag);
        }
        i, stanzaType := id.rest, id.value;
      } else {
        i, stanzaType := tag.input, Verse;
      }

      var (next, stanza) := MatchBlock(i);
      ghost var after := Add(before, stanzaType, stanza);
      assert NextStanza(rest) == Ok((next, stanzaType, stanza));
      assert Stanzas(rest, before) == Stanzas(next, after);
      AddTracks(before, stanzaType, stanza);

      match stanzaType {
        case Verse =>
          song.AddVerse(stanza);
          order := order + "v";
        case Chorus =>
          song.SetChorus(stanza);
          order := order + "c";
        case Bridge =>
          song.SetBridge(stanza);
          order := order + "b";
      }

      assert Progress(song.verses, song.chorus, song.bridge, order) == after;
      rest := next;
    }

    var ordered := song.SetOrder(order);
    assert ordered.Ok?;  // the `unwrap` at the end of `parse` never fails
    return Ok(song);
  }

  /** `match_block` on an input whose first blank line starts at `i`. */
  lemma MatchBlockAt(s: string, i: nat)
    requires OccursAt(s, "\n\n", i) && forall j :: 0 <= j < i ==> !OccursAt(s, "\n\n", j)
    ensures MatchBlock(s) == (s[i + 2..], s[..i])
  {
    var r := MatchBlock(s);
    assert s == r.1 + "\n\n" + r.0;
    assert OccursAt(s, "\n\n", |r.1|) by {
      assert s[|r.1|..|r.1| + 2] == "\n\n";
    }
    assert |r.1| == i;
    assert s[..i] == r.1;
    assert s[i + 2..] == r.0;
  }

  /** A prefix without line breaks holds no blank line. */
  lemma NoBreakNoBlank(s: string, i: nat)
    requires i <= |s| && '\n' !in s[..i]
    ensures forall j :: 0 <= j < i ==> !OccursAt(s, "\n\n", j)
  {
    forall j | 0 <= j < i
      ensures !OccursAt(s, "\n\n", j)
    {
      assert s[..i][j] == s[j];
      assert j + 2 <= |s| ==> s[j..j + 2][0] == s[j];
    }
  }

  lemma ExampleTitle()
    ensures MatchName("Title\n\nLine one\n\n#c\nChorus line\n\n") == Done("Line one\n\n#c\nChorus line\n\n", "Title")
  {
    var input := "Title\n\nLine one\n\n#c\nChorus line\n\n";
    assert input[5] == '\n' && input[6] == '\n' && '\n' !in input[..5];
    assert input[..5] == "Title";
    assert input[7..] == "Line one\n\n#c\nChorus line\n\n";
  }

  lemma ExampleVerse()
    ensures NextStanza("Line one\n\n#c\nChorus line\n\n") == Ok(("#c\nChorus line\n\n", Verse, "Line one"))
  {
    var s1 := "Line one\n\n#c\nChorus line\n\n";
    assert s1[..8] == "Line one";
    assert s1[8..10] == "\n\n";
    assert s1[10..] == "#c\nChorus line\n\n";
    NoBreakNoBlank(s1, 8);
    MatchBlockAt(s1, 8);
  }

  lemma ExampleChorusBlock()
    ensures MatchBlock("Chorus line\n\n") == ("", "Chorus line")
  {
    var s3 := "Chorus line\n\n";
    assert s3[..11] == "Chorus line";
    assert s3[11..13] == "\n\n";
    assert s3[13..] == "";
    NoBreakNoBlank(s3, 11);
    MatchBlockAt(s3, 11);
  }

  lemma ExampleChorus()
    ensures NextStanza("#c\nChorus line\n\n") == Ok(("", Chorus, "Chorus line"))
  {
    var s2 := "#c\nChorus line\n\n";
    var s3 := "Chorus line\n\n";
    assert s2[1..] == "c\n" + s3;
    assert IdentifyTag(s2[1..]) == Done(s3, Chorus);
    ExampleChorusBlock();
  }

  lemma StanzasStep(s: string, p: Progress)
    requires s != "" && NextStanza(s).Ok?
    ensures var (rest, t, stanza) := NextStanza(s).value; Stanzas(s, p) == Stanzas(rest, Add(p, t, stanza))
  {
  }

  lemma ParsedFrom(input: string, rest: string, name: string, p: Progress)
    requires MatchName(input) == Done(rest, name) && Stanzas(rest, Nothing) == Ok(p)
    ensures Parsed(input) == Ok(SongOf(name, p))
  {
  }

  lemma WorkedStanzas()
    ensures Stanzas("Line one\n\n#c\nChorus line\n\n", Nothing) == Ok(Progress(["Line one"], Some("Chorus line"), None, "vc"))
  {
    var p1 := Progress(["Line one"], None, None, "v");
    assert Add(Nothing, Verse, "Line one") == p1 by {
      assert [] + ["Line one"] == ["Line one"];
      assert "" + "v" == "v";
    }
    var p2 := Progress(["Line one"], Some("Chorus line"), None, "vc");
    assert Add(p1, Chorus, "Chorus line") == p2 by {
      assert "v" + "c" == "vc";
    }
    ExampleVerse();
    StanzasStep("Line one\n\n#c\nChorus line\n\n", Nothing);
    ExampleChorus();
    StanzasStep("#c\nChorus line\n\n", p1);
  }

  /** A title, a verse and a tagged chorus, each followed by a blank line. */
  lemma WorkedExample()
    ensures Parsed("Title\n\nLine one\n\n#c\nChorus line\n\n")
         == Ok(Lib.SongValue("Title", "vc", ["Line one"], Some("Chorus line"), None))
  {
    ExampleTitle();
    WorkedStanzas();
    ParsedFrom("Title\n\nLine one\n\n#c\nChorus line\n\n", "Line one\n\n#c\nChorus line\n\n", "Title",
               Progress(["Line one"], Some("Chorus line"), None, "vc"));
  }
}
