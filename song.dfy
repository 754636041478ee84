/**
 * The song model of src/song.rs: a consuming builder whose setters take the
 * builder by value and hand it back, and a single validating `build` step.
 */
module Songs {
  import opened Wrappers
  import opened Text

  /** The role of a stanza in a song. */
  datatype StanzaType = Verse | Chorus | Bridge

  /** A validated song. */
  datatype Song = Song(
    title: string,
    order: string,
    verses: seq<string>,
    chorus: Option<string>,
    bridge: Option<string>)

  /** A song being assembled; nothing is checked until `Build`. */
  datatype SongBuilder = SongBuilder(
    title: string,
    order: Option<string>,
    verses: Option<seq<string>>,
    chorus: Option<string>,
    bridge: Option<string>)

  /** The `SongError` variants that `build` raises, each naming the song. */
  datatype SongError =
    | NoOrder(songTitle: string)
    | NoChorus(songTitle: string)
    | NoBridge(songTitle: string)
    | NotEnoughVerses(songTitle: string, expected: nat, actual: nat)

  /** `Song::builder`: only the title is set. */
  function Builder(title: string): (b: SongBuilder)
    ensures b.title == title
    ensures b.order.None? && b.verses.None? && b.chorus.None? && b.bridge.None?
  {
    SongBuilder(title, None, None, None, None)
  }

  /** The verses collected so far (the field stays absent until the first verse). */
  function Verses(b: SongBuilder): seq<string> {
    if b.verses.Some? then b.verses.value else []
  }

  /** `add_verse`: appends after the verses already collected. */
  function AddVerse(b: SongBuilder, verse: string): (r: SongBuilder)
    ensures r.verses.Some? && |r.verses.value| == |Verses(b)| + 1
    ensures r.verses.value[..|Verses(b)|] == Verses(b) && r.verses.value[|Verses(b)|] == verse
    ensures r.title == b.title && r.order == b.order && r.chorus == b.chorus && r.bridge == b.bridge
  {
    b.(verses := Some(Verses(b) + [verse]))
  }

  /** `set_chorus`: the last chorus written wins. */
  function SetChorus(b: SongBuilder, chorus: string): (r: SongBuilder)
    ensures r.chorus == Some(chorus)
    ensures r.title == b.title && r.order == b.order && r.verses == b.verses && r.bridge == b.bridge
  {
    b.(chorus := Some(chorus))
  }

  /** `set_bridge`: the last bridge written wins. */
  function SetBridge(b: SongBuilder, bridge: string): (r: SongBuilder)
    ensures r.bridge == Some(bridge)
    ensures r.title == b.title && r.order == b.order && r.verses == b.verses && r.chorus == b.chorus
  {
    b.(bridge := Some(bridge))
  }

  /** `set_order`: the last order written wins. */
  function SetOrder(b: SongBuilder, order: string): (r: SongBuilder)
    ensures r.order == Some(order)
    ensures r.title == b.title && r.verses == b.verses && r.chorus == b.chorus && r.bridge == b.bridge
  {
    b.(order := Some(order))
  }

  /** The order is set and every `c` and `b` in it has its stanza. */
  predicate StanzasPresent(b: SongBuilder) {
    && b.order.Some?
    && ('c' in b.order.value ==> b.chorus.Some?)
    && ('b' in b.order.value ==> b.bridge.Some?)
  }

  /**
   * What `build` accepts: the stanzas the order names are present, at least
   * one verse was added, and the order has at least as many `v` as there are
   * verses.
   */
  predicate Buildable(b: SongBuilder) {
    StanzasPresent(b) && b.verses.Some? && Count(b.order.value, 'v') >= |b.verses.value|
  }

  /** `build`: the checks run in the order NoOrder, NoChorus, NoBridge, NotEnoughVerses. */
  function Build(b: SongBuilder): (r: Result<Song, SongError>)
    ensures r.Ok? <==> Buildable(b)
    ensures r.Ok? ==> r.value == Song(b.title, b.order.value, b.verses.value, b.chorus, b.bridge)
    ensures b.order.None? ==> r == Err(NoOrder(b.title))
    ensures b.order.Some? && 'c' in b.order.value && b.chorus.None? ==> r == Err(NoChorus(b.title))
    ensures (b.order.Some? && !('c' in b.order.value && b.chorus.None?) && 'b' in b.order.value && b.bridge.None?)
      ==> r == Err(NoBridge(b.title))
    ensures StanzasPresent(b) && b.verses.None? ==> r == Err(NotEnoughVerses(b.title, 1, 0))
    ensures (StanzasPresent(b) && b.verses.Some? && Count(b.order.value, 'v') < |b.verses.value|)
      ==> r == Err(NotEnoughVerses(b.title, Count(b.order.value, 'v'), |b.verses.value|))
  {
    if b.order.None? then Err(NoOrder(b.title))
    else
      var order := b.order.value;
      if 'c' in order && b.chorus.None? then Err(NoChorus(b.title))
      else if 'b' in order && b.bridge.None? then Err(NoBridge(b.title))
      else if b.verses.None? then Err(NotEnoughVerses(b.title, 1, 0))
      else
        var vAct := |b.verses.value|;
        var vExp := Count(order, 'v');
        if vExp < vAct then Err(NotEnoughVerses(b.title, vExp, vAct))
        else Ok(Song(b.title, order, b.verses.value, b.chorus, b.bridge))
  }

  /** The builder holding three verses and the given order. */
  function ThreeVerses(order: string): SongBuilder {
    SetOrder(AddVerse(AddVerse(AddVerse(Builder("T"), "one"), "two"), "three"), order)
  }

  /**
   * The verse check is "at least as many `v` as verses": with three verses,
   * `vv` is rejected and both `vvv` and `vvvv` pass.
   */
  lemma VerseInequalityExamples()
    ensures Build(ThreeVerses("vv")) == Err(NotEnoughVerses("T", 2, 3))
    ensures Build(ThreeVerses("vvv")).Ok?
    ensures Build(ThreeVerses("vvvv")).Ok?
  {
    assert Count("vv", 'v') == 2;
    assert Count("vvv", 'v') == 3;
    assert Count("vvvv", 'v') == 4;
  }

  /** Without any verse the build fails even when the order asks for none. */
  lemma NoVerseAlwaysFails(title: string, order: string)
    requires 'c' !in order && 'b' !in order
    ensures Build(SetOrder(Builder(title), order)) == Err(NotEnoughVerses(title, 1, 0))
  {
  }
}
