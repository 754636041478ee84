/**
 * The VideoPsalm front end of src/parser/video_psalm.rs, from the decoded
 * song book on: each record's stanzas are classified by their tag, fed to a
 * song builder with an order built beside them, and the song is built.
 */
module VideoPsalm {
  import opened Wrappers
  import opened Text
  import opened Songs

  /** Rust's `i32`. */
  newtype i32 = x: int | -0x8000_0000 <= x < 0x8000_0000

  /** A decoded stanza: its text and its optional tag (none: verse, 1: chorus, 3: bridge, 6: repeat). */
  datatype VsStanza = VsStanza(text: string, tag: Option<i32>)

  /** A decoded song record: its title and its stanzas in book order. */
  datatype VsSong = VsSong(title: string, stanzas: seq<VsStanza>)

  /** The `ParseError` that a failed `build` becomes. */
  datatype ParseError = OrderError(songError: SongError)

  /** One pass of the inner loop: what one stanza does to the builder and to the order. */
  function Feed(s: SongBuilder, order: string, stanza: VsStanza): (SongBuilder, string) {
    match stanza.tag
    case None => (AddVerse(s, stanza.text), order + "v")
    case Some(tag) =>
      if tag == 1 then (SetChorus(s, stanza.text), order + "c")
      else if tag == 3 then (SetBridge(s, stanza.text), order + "b")
      else (s, order)
  }

  /** The inner loop from `stanzas` on, starting from builder `s` and order `order`. */
  function FeedAll(s: SongBuilder, order: string, stanzas: seq<VsStanza>): (SongBuilder, string)
    decreases |stanzas|
  {
    if stanzas == [] then (s, order)
    else
      var (s', order') := Feed(s, order, stanzas[0]);
      FeedAll(s', order', stanzas[1..])
  }

  /** The song one record gives: every stanza fed into a fresh builder, the order set, then `build`. */
  function SongFrom(j: VsSong): Result<Song, SongError> {
    var (s, order) := FeedAll(Builder(j.title), "", j.stanzas);
    Build(SetOrder(s, order))
  }

  /** What `video_psalm` returns: one song per record in record order, or the first record's failure. */
  function AllSongs(songs: seq<VsSong>): Result<seq<Song>, ParseError>
    decreases |songs|
  {
    if songs == [] then Ok([])
    else
      match SongFrom(songs[0])
      case Err(e) => Err(OrderError(e))
      case Ok(song) =>
        match AllSongs(songs[1..])
        case Err(e) => Err(e)
        case Ok(rest) => Ok([song] + rest)
  }

  /** The songs built before the remaining records are appended to what those give. */
  function After(done: seq<Song>, r: Result<seq<Song>, ParseError>): Result<seq<Song>, ParseError> {
    if r.Ok? then Ok(done + r.value) else r
  }

  /**
   * `video_psalm` on the decoded records: the outer loop builds one song per
   * record and returns at the first error; the inner loop feeds the stanzas.
   */
  method Parse(songs: seq<VsSong>) returns (r: Result<seq<Song>, ParseError>)
    ensures r == AllSongs(songs)
  {
    var ret: seq<Song> := [];
    assert songs[0..] == songs;
    assert AllSongs(songs).Ok? ==> [] + AllSongs(songs).value == AllSongs(songs).value;
    for n := 0 to |songs|
      invariant AllSongs(songs) == After(ret, AllSongs(songs[n..]))
    {
      var j := songs[n];
      var s := Builder(j.title);
      var order := "";
      for k := 0 to |j.stanzas|
        invariant FeedAll(s, order, j.stanzas[k..]) == FeedAll(Builder(j.title), "", j.stanzas)
      {
        var stanza := j.stanzas[k];
        assert j.stanzas[k..][1..] == j.stanzas[k + 1..];
        match stanza.tag {
          case None =>
            s := AddVerse(s, stanza.text);
            order := order + "v";
          case Some(tag) =>
            if tag == 1 {
              s := SetChorus(s, stanza.text);
              order := order + "c";
            } else if tag == 3 {
              s := SetBridge(s, stanza.text);
              order := order + "b";
            } else if tag == 6 {
              // a repeated verse: ignored
            } else {
              // an unknown tag: ignored
            }
        }
      }
      assert j.stanzas[|j.stanzas|..] == [];
      assert songs[n..][1..] == songs[n + 1..];
      s := SetOrder(s, order);
      var built := Build(s);
      assert built == SongFrom(j);
      if built.Err? {
        return Err(OrderError(built.error));
      }
      assert AllSongs(songs[n..]).Ok? ==> AllSongs(songs[n..]).value == [built.value] + AllSongs(songs[n + 1..]).value;
      assert AllSongs(songs[n + 1..]).Ok? ==>
        ret + AllSongs(songs[n..]).value == (ret + [built.value]) + AllSongs(songs[n + 1..]).value;
      ret := ret + [built.value];
    }
    assert songs[|songs|..] == [] && ret + [] == ret;
    return Ok(ret);
  }

  // Reference definitions of what the loop collects, stanza by stanza.

  /** The order letter a tag contributes. */
  function Letter(tag: Option<i32>): string {
    match tag
    case None => "v"
    case Some(t) => if t == 1 then "c" else if t == 3 then "b" else ""
  }

  /** The order: one letter per verse, chorus and bridge stanza, in book order. */
  function OrderOf(stanzas: seq<VsStanza>): string {
    if stanzas == [] then "" else Letter(stanzas[0].tag) + OrderOf(stanzas[1..])
  }

  /** The texts of the untagged stanzas, in book order. */
  function VerseTexts(stanzas: seq<VsStanza>): seq<string> {
    if stanzas == [] then []
    else (if stanzas[0].tag.None? then [stanzas[0].text] else []) + VerseTexts(stanzas[1..])
  }

  /** The text of the last stanza carrying `tag`, if any. */
  function LastWith(stanzas: seq<VsStanza>, tag: i32): Option<string> {
    if stanzas == [] then None
    else
      var later := LastWith(stanzas[1..], tag);
      if later.Some? then later
      else if stanzas[0].tag == Some(tag) then Some(stanzas[0].text)
      else None
  }

  /** Keeps `old` unless `later` has a value. */
  function Override(previous: Option<string>, later: Option<string>): Option<string> {
    if later.Some? then later else previous
  }

  /** Feeding stanzas appends their letters to the order. */
  lemma {:induction false} FeedAllOrder(s: SongBuilder, order: string, stanzas: seq<VsStanza>)
    ensures FeedAll(s, order, stanzas).1 == order + OrderOf(stanzas)
    decreases |stanzas|
  {
    if stanzas != [] {
      var (s', order') := Feed(s, order, stanzas[0]);
      FeedAllOrder(s', order', stanzas[1..]);
      assert order' == order + Letter(stanzas[0].tag);
      assert order + OrderOf(stanzas) == order' + OrderOf(stanzas[1..]);
    }
  }

  /**
   * Feeding stanzas appends their verses to the builder's; the verses field
   * stays absent if neither has any.
   */
  lemma {:induction false} FeedAllVerses(s: SongBuilder, order: string, stanzas: seq<VsStanza>)
    ensures Verses(FeedAll(s, order, stanzas).0) == Verses(s) + VerseTexts(stanzas)
    ensures FeedAll(s, order, stanzas).0.verses.Some? <==> s.verses.Some? || VerseTexts(stanzas) != []
    decreases |stanzas|
  {
    if stanzas != [] {
      var (s', order') := Feed(s, order, stanzas[0]);
      FeedAllVerses(s', order', stanzas[1..]);
      var head := if stanzas[0].tag.None? then [stanzas[0].text] else [];
      assert Verses(s') == Verses(s) + head;
      assert VerseTexts(stanzas) == head + VerseTexts(stanzas[1..]);
      assert Verses(s) + VerseTexts(stanzas) == Verses(s') + VerseTexts(stanzas[1..]);
    }
  }

  /** Feeding stanzas leaves title and order field alone, and the last chorus and bridge win. */
  lemma {:induction false} FeedAllStanzas(s: SongBuilder, order: string, stanzas: seq<VsStanza>)
    ensures FeedAll(s, order, stanzas).0.chorus == Override(s.chorus, LastWith(stanzas, 1))
    ensures FeedAll(s, order, stanzas).0.bridge == Override(s.bridge, LastWith(stanzas, 3))
    ensures FeedAll(s, order, stanzas).0.title == s.title && FeedAll(s, order, stanzas).0.order == s.order
    decreases |stanzas|
  {
    if stanzas != [] {
      var (s', order') := Feed(s, order, stanzas[0]);
      FeedAllStanzas(s', order', stanzas[1..]);
    }
  }

  /** One `v` per verse in the order. */
  lemma {:induction false} OrderCountsVerses(stanzas: seq<VsStanza>)
    ensures Count(OrderOf(stanzas), 'v') == |VerseTexts(stanzas)|
  {
    if stanzas != [] {
      OrderCountsVerses(stanzas[1..]);
      CountAppend(Letter(stanzas[0].tag), OrderOf(stanzas[1..]), 'v');
    }
  }

  /** A letter is in the order exactly when some stanza contributed it. */
  lemma {:induction false} OrderNamesTags(stanzas: seq<VsStanza>)
    ensures 'c' in OrderOf(stanzas) <==> LastWith(stanzas, 1).Some?
    ensures 'b' in OrderOf(stanzas) <==> LastWith(stanzas, 3).Some?
  {
    if stanzas != [] {
      OrderNamesTags(stanzas[1..]);
      var l, rest := Letter(stanzas[0].tag), OrderOf(stanzas[1..]);
      assert OrderOf(stanzas) == l + rest;
      assert forall c :: c in l + rest <==> c in l || c in rest;
    }
  }

  /** There are verses exactly when some stanza has no tag. */
  lemma {:induction false} VersesFromUntagged(stanzas: seq<VsStanza>)
    ensures VerseTexts(stanzas) != [] <==> exists k :: 0 <= k < |stanzas| && stanzas[k].tag.None?
  {
    if stanzas != [] {
      VersesFromUntagged(stanzas[1..]);
      if exists k :: 0 <= k < |stanzas| && stanzas[k].tag.None? {
        var k :| 0 <= k < |stanzas| && stanzas[k].tag.None?;
        if k > 0 {
          assert stanzas[1..][k - 1].tag.None?;
        }
      }
      if exists k :: 0 <= k < |stanzas[1..]| && stanzas[1..][k].tag.None? {
        var k :| 0 <= k < |stanzas[1..]| && stanzas[1..][k].tag.None?;
        assert stanzas[k + 1].tag.None?;
      }
    }
  }

  /**
   * A record builds exactly when it has an untagged stanza; the song then
   * holds the title, the order of the stanzas' letters, the untagged texts
   * and the last chorus and bridge. Otherwise the error is the only one the
   * order built here can meet: one verse expected, none given.
   */
  lemma SongFromSpec(j: VsSong)
    ensures SongFrom(j).Ok? <==> exists k :: 0 <= k < |j.stanzas| && j.stanzas[k].tag.None?
    ensures SongFrom(j).Ok? ==>
      SongFrom(j).value == Song(j.title, OrderOf(j.stanzas), VerseTexts(j.stanzas),
                                LastWith(j.stanzas, 1), LastWith(j.stanzas, 3))
    ensures SongFrom(j).Err? ==> SongFrom(j).error == NotEnoughVerses(j.title, 1, 0)
  {
    FeedAllOrder(Builder(j.title), "", j.stanzas);
    FeedAllVerses(Builder(j.title), "", j.stanzas);
    FeedAllStanzas(Builder(j.title), "", j.stanzas);
    OrderCountsVerses(j.stanzas);
    OrderNamesTags(j.stanzas);
    VersesFromUntagged(j.stanzas);
    assert "" + OrderOf(j.stanzas) == OrderOf(j.stanzas);
    assert [] + VerseTexts(j.stanzas) == VerseTexts(j.stanzas);
  }

  /** All records build exactly when the call succeeds, and then the songs are theirs, in record order. */
  lemma {:induction false} AllSongsOk(songs: seq<VsSong>)
    ensures AllSongs(songs).Ok? <==> forall n :: 0 <= n < |songs| ==> SongFrom(songs[n]).Ok?
    ensures AllSongs(songs).Ok? ==>
      |AllSongs(songs).value| == |songs| &&
      forall n :: 0 <= n < |songs| ==> AllSongs(songs).value[n] == SongFrom(songs[n]).value
    decreases |songs|
  {
    if songs != [] {
      AllSongsOk(songs[1..]);
      assert forall n :: 0 < n < |songs| ==> songs[n] == songs[1..][n - 1];
    }
  }

  /** A failure is that of the first record that does not build: nothing built before it is returned. */
  lemma {:induction false} AllSongsErr(songs: seq<VsSong>)
    ensures AllSongs(songs).Err? ==>
      exists n :: (&& 0 <= n < |songs| && SongFrom(songs[n]).Err?
                   && (forall m :: 0 <= m < n ==> SongFrom(songs[m]).Ok?)
                   && AllSongs(songs).error == OrderError(SongFrom(songs[n]).error))
    decreases |songs|
  {
    if songs != [] && AllSongs(songs).Err? && SongFrom(songs[0]).Ok? {
      AllSongsErr(songs[1..]);
      var n :| 0 <= n < |songs[1..]| && SongFrom(songs[1..][n]).Err?
        && (forall m :: 0 <= m < n ==> SongFrom(songs[1..][m]).Ok?)
        && AllSongs(songs[1..]).error == OrderError(SongFrom(songs[1..][n]).error);
      assert forall m :: 0 < m <= n ==> songs[m] == songs[1..][m - 1];
      assert SongFrom(songs[n + 1]).Err?;
    }
  }

  /** A chorus stanza given twice: the second text wins, and the order has two `c`. */
  lemma RepeatedChorus(title: string, verse: string, first: string, second: string)
    ensures SongFrom(VsSong(title, [VsStanza(verse, None), VsStanza(first, Some(1)), VsStanza(second, Some(1))]))
         == Ok(Song(title, "vcc", [verse], Some(second), None))
  {
    var st := [VsStanza(verse, None), VsStanza(first, Some(1)), VsStanza(second, Some(1))];
    SongFromSpec(VsSong(title, st));
    assert st[0].tag.None?;
    assert st[1..][1..] == [st[2]] && [st[2]][1..] == [];
    assert OrderOf([st[2]]) == "c";
    assert OrderOf(st[1..]) == "cc";
    assert OrderOf(st) == "vcc";
    assert VerseTexts([st[2]][1..]) == [] && VerseTexts([st[2]]) == [];
    assert VerseTexts(st[1..]) == [];
    assert VerseTexts(st) == [verse];
    assert LastWith([st[2]][1..], 1) == None;
    assert LastWith([st[2]], 1) == Some(second);
    assert LastWith(st[1..], 1) == Some(second);
    assert LastWith([st[2]], 3) == None;
    assert LastWith(st[1..], 3) == None;
  }
}
