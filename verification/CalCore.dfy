/** The calibration record's channels and the table laid from them, kept alike by every call that
    changes either. */
module CalCore {
  import opened CalTable

  /** A stored record's channels, by whether it is this version's, an earlier one's, or neither. */
  datatype Stored = Whole(chan: seq<Trim>) | Earlier(chan: seq<Trim>) | Unusable

  class Calibration {
    const chan: array<Trim>
    const laid: array<Laid>

    predicate Shaped() { chan.Length == CHANNELS && laid.Length == CHANNELS + 1 }

    /** The table mirrors the record, and its last row, for an index no channel has, is no trim. */
    predicate Mirrors()
      reads chan, laid
    {
      && Shaped()
      && laid[CHANNELS] == Laid(0, 0)
      && forall i :: 0 <= i < CHANNELS ==> laid[i] == LaidOf(chan[i])
    }

    /** As the image starts: both tables zero, which mirror each other. */
    constructor ()
      ensures Mirrors() && fresh(chan) && fresh(laid)
      ensures forall i :: 0 <= i < CHANNELS ==> chan[i] == Trim(0, 0)
    {
      chan := new Trim[CHANNELS](_ => Trim(0, 0));
      laid := new Laid[CHANNELS + 1](_ => Laid(0, 0));
      new;
      NoTrim();
    }

    /** The table laid out afresh from the record. */
    method Lay()
      requires Shaped() && laid[CHANNELS] == Laid(0, 0)
      modifies laid
      ensures Mirrors()
    {
      hide LaidOf;
      for i := 0 to CHANNELS
        invariant laid[CHANNELS] == Laid(0, 0)
        invariant forall k :: 0 <= k < i ==> laid[k] == LaidOf(chan[k])
      {
        var l := LaidRow(chan[i]);
        laid[i] := l;
      }
    }

    method LaidRow(t: Trim) returns (l: Laid)
      ensures l == LaidOf(t)
    {
      var gain := Millionths(t.ppm * ONE);
      var most := INT32_MAX - ONE;
      l := Laid(t.offset, Wrap(if gain < most then gain else most));
    }

    /** One channel's trim, refused for an unknown index or a gain that is not a positive factor;
        every other channel reads as it did. */
    method SetChannel(index: nat, offset: int, ppm: int) returns (took: bool)
      requires Mirrors() && Fits(offset) && Fits(ppm)
      modifies chan, laid
      ensures Mirrors() && took == (index < CHANNELS && Accepts(ppm))
      ensures took ==> chan[index] == Trim(offset, ppm)
      ensures forall i :: 0 <= i < CHANNELS && !(took && i == index) ==> chan[i] == old(chan[i])
    {
      if index >= CHANNELS || ppm <= -MILLION {
        return false;
      }
      chan[index] := Trim(offset, ppm);
      Lay();
      return true;
    }

    /** A stored record taken: the table follows it; one that cannot be used changes nothing. */
    method Take(stored: Stored) returns (took: bool)
      requires Mirrors() && (stored.Unusable? || |stored.chan| == CHANNELS)
      modifies chan, laid
      ensures Mirrors() && took == !stored.Unusable?
      ensures chan[..] == if took then stored.chan else old(chan[..])
    {
      if stored.Unusable? {
        return false;
      }
      for i := 0 to CHANNELS
        invariant laid[CHANNELS] == Laid(0, 0)
        invariant forall k :: 0 <= k < i ==> chan[k] == stored.chan[k]
      {
        chan[i] := stored.chan[i];
      }
      Lay();
      return true;
    }

    method Defaults()
      requires Mirrors()
      modifies chan, laid
      ensures Mirrors() && forall i :: 0 <= i < CHANNELS ==> chan[i] == Trim(0, 0)
    {
      for i := 0 to CHANNELS
        invariant laid[CHANNELS] == Laid(0, 0)
        invariant forall k :: 0 <= k < i ==> chan[k] == Trim(0, 0)
      {
        chan[i] := Trim(0, 0);
      }
      Lay();
    }

    /** The record out of flash, or the defaults. */
    method Init(stored: Stored)
      requires Mirrors() && (stored.Unusable? || |stored.chan| == CHANNELS)
      modifies chan, laid
      ensures Mirrors()
      ensures !stored.Unusable? ==> chan[..] == stored.chan
      ensures stored.Unusable? ==> forall i :: 0 <= i < CHANNELS ==> chan[i] == Trim(0, 0)
    {
      var took := Take(stored);
      if !took {
        Defaults();
      }
    }

    /** A reading through its channel's trim as recorded, or untouched for an unknown index. */
    method Apply(index: nat, raw: int) returns (y: int)
      requires Mirrors() && Fits(raw)
      ensures y == if index < CHANNELS then Applied(LaidOf(chan[index]), raw) else raw
    {
      var k := if index < CHANNELS then index else CHANNELS;
      Identity(raw);
      var scaled := Wrap(raw - laid[k].offset) * (laid[k].gain + ONE);
      y := Wrap((scaled + HALF) / ONE);
    }
  }

  lemma NoTrim()
    ensures LaidOf(Trim(0, 0)) == Laid(0, 0)
  {
    assert Millionths(0) == 0;
  }
}
