/**
 * The mutable song of src/lib.rs: verses, chorus and bridge are set in place,
 * and `set_order` stores the order only after checking it against them.
 */
module Lib {
  import opened Wrappers
  import opened Text

  /** The fields of a `Song` at one moment. */
  datatype SongValue = SongValue(
    name: string,
    order: string,
    verses: seq<string>,
    chorus: Option<string>,
    bridge: Option<string>)

  /**
   * The condition `set_order` checks: every `c` and `b` has its stanza and the
   * order has at least as many `v` as there are verses.
   */
  predicate OrderFits(order: string, chorus: Option<string>, bridge: Option<string>, verseCount: nat) {
    && ('c' in order ==> chorus.Some?)
    && ('b' in order ==> bridge.Some?)
    && Count(order, 'v') >= verseCount
  }

  const ChorusMissing := "ERROR: Order calls for a chorus, but song has none specified!"
  const BridgeMissing := "ERROR: Order calls for bridge, but song has none specified!"

  function TooFewVerses(vCount: nat, vSpec: nat): string {
    "ERROR: Order calls for " + NatToString(vCount) + " verses, but only " + NatToString(vSpec) + " specified!"
  }

  class Song {
    var name: string
    var order: string
    var verses: seq<string>
    var chorus: Option<string>
    var bridge: Option<string>

    function Value(): SongValue
      reads this
    {
      SongValue(name, order, verses, chorus, bridge)
    }

    /** `Song::new`: the name, an empty order, no stanzas. */
    constructor (name: string)
      ensures Value() == SongValue(name, "", [], None, None)
    {
      this.name := name;
      order := "";
      verses := [];
      chorus := None;
      bridge := None;
    }

    method AddVerse(verse: string)
      modifies this
      ensures Value() == old(Value()).(verses := old(verses) + [verse])
    {
      verses := verses + [verse];
    }

    method SetChorus(chorus: string)
      modifies this
      ensures Value() == old(Value()).(chorus := Some(chorus))
    {
      this.chorus := Some(chorus);
    }

    method SetBridge(bridge: string)
      modifies this
      ensures Value() == old(Value()).(bridge := Some(bridge))
    {
      this.bridge := Some(bridge);
    }

    /**
     * `set_order`: Ok exactly when the order fits the stanzas; then only the
     * order changes, and on Err nothing changes. The chorus check comes
     * first, then the bridge check, then the verse count.
     */
    method SetOrder(order: string) returns (r: Result<(), string>)
      modifies this
      ensures r.Ok? <==> old(OrderFits(order, chorus, bridge, |verses|))
      ensures r.Ok? ==> Value() == old(Value()).(order := order)
      ensures r.Err? ==> Value() == old(Value())
      ensures 'c' in order && old(chorus).None? ==> r == Err(ChorusMissing)
      ensures !('c' in order && old(chorus).None?) && 'b' in order && old(bridge).None?
        ==> r == Err(BridgeMissing)
      ensures (('c' in order ==> old(chorus).Some?) && ('b' in order ==> old(bridge).Some?)
               && Count(order, 'v') < old(|verses|))
        ==> r == Err(TooFewVerses(Count(order, 'v'), old(|verses|)))
    {
      if 'c' in order && chorus == None {
        return Err(ChorusMissing);
      }
      if 'b' in order && bridge == None {
        return Err(BridgeMissing);
      }
      var vCount := Count(order, 'v');
      var vSpec := |verses|;
      if vCount < vSpec {
        return Err(TooFewVerses(vCount, vSpec));
      }
      this.order := order;
      return Ok(());
    }
  }

  /** An empty order is accepted on a song without verses. */
  lemma EmptyOrderFitsNoVerses(chorus: Option<string>, bridge: Option<string>)
    ensures OrderFits("", chorus, bridge, 0)
  {
  }
}
