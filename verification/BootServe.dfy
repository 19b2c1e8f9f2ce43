/** The op switch: what the running core does is a step of the runs. */
module BootServe {
  import opened Bytes
  import opened BootPort
  import opened BootNode
  import opened BootCore
  import opened BootRuns
  import opened BootLaws

  /** One request served: a step of a run, every flash word asked for erased since it was last, and
      every cut of the supply on the way one that a reset may start from. */
  method Serve(b: Boot, e: Event, ghost a: Sys) returns (ghost z: Sys)
    requires b.Valid() && !e.Resets?
    requires a.node == b.s && a.ram == b.port.ram && a.flash == b.port.flash
    modifies b, b.port
    ensures b.Valid() && z.node == b.s && z.ram == b.port.ram && z.flash == b.port.flash
    ensures Step(a, b.layout, e, z)
    ensures b.port.refused == old(b.port.refused)
    ensures |old(b.port.cuts)| <= |b.port.cuts|
    ensures forall k :: |old(b.port.cuts)| <= k < |b.port.cuts| ==>
              SealCuts(b.port.cuts[k], a.node, a.ram, a.flash, b.layout.kind)
  {
    hide Hold, Assign, Offer, Chunk, Verify, Record, Go, SealStep, SealCuts, NodeOk, OfferHeard,
         ImageHeld, StoreNames;
    ghost var streaming := a.streaming;
    match e {
      case Holds(session) => b.HoldOp(session);
      case Assigns(uid, unit, position, flags) =>
        var _ := b.AssignOp(uid, unit, position, flags);
      case Offers(offer, size, crc, chunks) =>
        if OfferHeard(a.node, b.layout.kind, offer, size, chunks) {
          streaming := Streams(a, b.layout, offer, size, crc, chunks);
        }
        b.EraseOp(offer, size, crc, chunks);
      case Chunks(index, data) => b.ChunkOp(index, data);
      case Verifies => var _, _ := b.VerifyOp();
      case Records(offset, data) => var _ := b.RecordOp(offset, data);
      case Seals(flags) =>
        var _ := b.SealOp(flags);
        streaming := a.streaming && (!a.node.verified || b.s.firstHeld);
      case Goes(session) => b.GoOp(session);
      case Resets(_, _) => assert false;
    }
    z := Sys(b.s, b.port.ram, b.port.flash, a.ready, streaming);
  }

  /** A reset on the flash as it stands, RAM holding anything: the gate's outcome is the reset step
      of a run, and it programs no flash word. */
  method Restart(port: Port, layout: Layout, bytes: nat, crc: bv32, ghost a: Sys)
    returns (b: Boot, ghost z: Sys)
    requires port.Valid() && Shaped(a) && a.flash == port.flash
    modifies port
    ensures b.Valid() && fresh(b) && b.port == port && b.layout == layout
    ensures z.node == b.s && z.ram == port.ram && z.flash == port.flash
    ensures Step(a, layout, Resets(bytes, crc), z)
    ensures port.refused == old(port.refused) && port.asked == old(port.asked)
    ensures port.cuts == old(port.cuts) && port.flash == old(port.flash)
    ensures Gated(z.ready, z.node, z.ram)
         == Gate(INITIAL, old(port.ram), port.flash, layout.kind, bytes, crc)
  {
    hide Gate, NodeOk, StoreNames;
    ghost var ram := port.ram;
    b := new Boot(layout, port);
    var ready := b.Ready(bytes, crc);
    z := Sys(b.s, port.ram, port.flash, ready, false);
    assert ResetTo(a, layout, bytes, crc, ram, z);
  }

  /** Any run of requests between two resets, from a port in whatever state the last cut left it:
      it is a run of the state machine, and over all of it no flash word is asked for twice without
      its sector erased between. */
  method ServeAll(b: Boot, events: seq<Event>, ghost a: Sys) returns (ghost states: seq<Sys>)
    requires b.Valid() && forall i :: 0 <= i < |events| ==> !events[i].Resets?
    requires a.node == b.s && a.ram == b.port.ram && a.flash == b.port.flash
    modifies b, b.port
    ensures b.Valid() && Run(states, b.layout, events) && states[0] == a
    ensures var z := states[|events|]; z.node == b.s && z.ram == b.port.ram && z.flash == b.port.flash
    ensures b.port.refused == old(b.port.refused)
  {
    hide Step;
    states := [a];
    for i := 0 to |events|
      invariant b.Valid() && |states| == i + 1 && states[0] == a
      invariant states[i].node == b.s && states[i].ram == b.port.ram && states[i].flash == b.port.flash
      invariant forall j :: 0 <= j < i ==>
                  Shaped(states[j]) && Step(states[j], b.layout, events[j], states[j + 1])
      invariant b.port.refused == old(b.port.refused)
    {
      ghost var z := Serve(b, events[i], states[i]);
      states := states + [z];
    }
  }

  /** The application handed over to, and a warm reset behind it, RAM as it was: the slot carries the
      run image and the address on, the reset is the machine's own, and a sealed image whose header
      names its size is ready where it stands. */
  method Again(b: Boot, slot: Slot, ghost a: Sys) returns (c: Boot, r: Slot, ghost z: Sys)
    requires b.Valid() && Inv(a, b.layout)
    requires a.node == b.s && a.ram == b.port.ram && a.flash == b.port.flash
    modifies b.port
    ensures c.Valid() && fresh(c) && c.port == b.port && c.layout == b.layout
    ensures z.node == c.s && z.ram == c.port.ram && z.flash == c.port.flash && z.flash == a.flash
    ensures Shaped(a) && Step(a, c.layout, Resets(r.bytes, r.crc), z)
    ensures r.handed && !r.stay && r.bytes == a.node.runBytes && r.crc == a.node.runCrc
    ensures Rank(a.node.state) >= Rank(Assigned) ==>
              r.unit == a.node.unit && r.position == a.node.position && r.flags == a.node.flags
    ensures Rank(a.node.state) < Rank(Assigned) && slot.handed ==>
              r.unit == slot.unit && r.position == slot.position && r.flags == slot.flags
    ensures a.node.state == Sealed && AppValid(a.ram, c.layout.kind)
            && U32(a.ram, HEADER + 4) == a.node.size ==>
              z.ready && z.ram == a.ram
  {
    hide Gate, StoreNames, Step, Inv, U32, AppValid;
    r := b.HandOverOp(slot);
    AgainReady(a, b.layout, slot);
    c, z := Restart(b.port, b.layout, r.bytes, r.crc, a);
  }

  lemma AgainReady(s: Sys, layout: Layout, slot: Slot)
    requires Inv(s, layout)
    ensures Shaped(s)
    ensures s.node.state == Sealed && AppValid(s.ram, layout.kind)
            && U32(s.ram, HEADER + 4) == s.node.size ==>
              var h := HandOver(s.node, slot);
              var g := Gate(INITIAL, s.ram, s.flash, layout.kind, h.bytes, h.crc);
              g.ready && g.ram == s.ram
  {
    ServeShaped(s, layout);
    hide Inv, Gate, U32, AppValid, HandOver;
    if s.node.state == Sealed && AppValid(s.ram, layout.kind) && U32(s.ram, HEADER + 4) == s.node.size {
      WarmRestart(s, layout, slot);
    }
  }

  lemma ServeShaped(s: Sys, layout: Layout)
    requires Inv(s, layout)
    ensures Shaped(s)
  {
  }
}
