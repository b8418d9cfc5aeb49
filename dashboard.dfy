/**
 * The dashboard: a map from condition name to LED state, into which each
 * update message is merged.
 */
module Dashboard {

  /** The condition names the pilot reports. */
  const NoGPSFix: string := "NoGPSFix"
  const InvalidGPSData: string := "InvalidGPSData"
  const SpeedTooLow: string := "SpeedTooLow"
  const HeadingErrorOutOfBounds: string := "HeadingErrorOutOfBounds"
  const CorrectionAtLimit: string := "CorrectionAtLimit"
  const NoLed: string := ""

  /**
   * The merge of an update into the LED map: every key of the update takes
   * the update's value, every other key keeps its value.
   */
  function Merge(leds: map<string, bool>, update: map<string, bool>): (r: map<string, bool>)
    ensures r.Keys == leds.Keys + update.Keys
    ensures forall k :: k in update ==> r[k] == update[k]
    ensures forall k :: k in leds && k !in update ==> r[k] == leds[k]
  {
    leds + update
  }

  /** Merging the same update twice is merging it once. */
  lemma MergeIsIdempotent(leds: map<string, bool>, update: map<string, bool>)
    ensures Merge(Merge(leds, update), update) == Merge(leds, update)
  {
  }

  /** An empty update changes nothing. */
  lemma EmptyUpdateIsIdentity(leds: map<string, bool>)
    ensures Merge(leds, map[]) == leds
  {
  }

  /** {AAA: true} then {BBB: true} keeps AAA on; {BBB: false, AAA: false} then clears both. */
  lemma MergeExamples()
    ensures var m := Merge(Merge(map[], map["AAA" := true]), map["BBB" := true]);
            m == map["AAA" := true, "BBB" := true]
            && Merge(m, map["BBB" := false, "AAA" := false]) == map["AAA" := false, "BBB" := false]
  {
  }

  class Dashboard {
    var leds: map<string, bool>

    /** The LED map starts empty. */
    constructor ()
      ensures leds == map[]
    {
      leds := map[];
    }

    /** Writes each entry of the update into the map, one key at a time. */
    method Update(update: map<string, bool>)
      modifies this
      ensures leds == Merge(old(leds), update)
    {
      var pending := update.Keys;
      while pending != {}
        invariant pending <= update.Keys
        invariant leds == old(leds) + map k | k in update.Keys - pending :: update[k]
        decreases pending
      {
        var k :| k in pending;
        leds := leds[k := update[k]];
        pending := pending - {k};
      }
    }
  }
}
