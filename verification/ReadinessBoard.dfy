// The only memory two owner processes share while they play: one byte per owner
// and phase, written once by its owner and read by the peer
// (scripts/_probe_timed_rom_pair_support.py).
module ReadinessBoard {
  import opened Common

  class PeerReadiness {
    const raw: array<Byte>
    const index: nat
    const phases: nat

    ghost predicate Valid() {
      index < 2 && raw.Length == 2 * phases
    }

    constructor (raw: array<Byte>, index: nat, phases: nat)
      requires index < 2 && raw.Length == 2 * phases
      ensures Valid() && this.raw == raw && this.index == index && this.phases == phases
    {
      this.raw := raw;
      this.index := index;
      this.phases := phases;
    }

    // The cell of a phase in the half of the board belonging to `owner`.
    function Cell(owner: nat, phase: nat): (cell: nat)
      requires Valid() && owner < 2 && phase < phases
      ensures cell < raw.Length
    {
      assert owner == 0 || owner == 1;
      owner * phases + phase
    }

    // Distinct owners and distinct phases never share a cell.
    lemma CellsDistinct(owner: nat, phase: nat, owner': nat, phase': nat)
      requires Valid() && owner < 2 && phase < phases && owner' < 2 && phase' < phases
      ensures Cell(owner, phase) == Cell(owner', phase') <==> owner == owner' && phase == phase'
    {
      assert owner == 0 || owner == 1;
      assert owner' == 0 || owner' == 1;
    }

    ghost predicate OwnUp(phase: nat)
      requires Valid() && phase < phases
      reads raw
    {
      raw[Cell(index, phase)] != 0
    }

    ghost predicate PeerUp(phase: nat)
      requires Valid() && phase < phases
      reads raw
    {
      raw[Cell(1 - index, phase)] != 0
    }

    // Raises one own flag; no other cell changes, in particular none of the peer's.
    method PublishReady(phase: nat)
      requires Valid() && phase < phases
      modifies raw
      ensures raw[..] == old(raw[..])[Cell(index, phase) := 1]
      ensures forall k :: 0 <= k < phases ==> PeerUp(k) == old(PeerUp(k))
      ensures forall k :: 0 <= k < phases ==> OwnUp(k) == (k == phase || old(OwnUp(k)))
    {
      raw[Cell(index, phase)] := 1;
      forall k | 0 <= k < phases
        ensures PeerUp(k) == old(PeerUp(k)) && OwnUp(k) == (k == phase || old(OwnUp(k)))
      {
        CellsDistinct(1 - index, k, index, phase);
        CellsDistinct(index, k, index, phase);
      }
    }

    method PeerReady(phase: nat) returns (ready: bool)
      requires Valid() && phase < phases
      ensures ready == PeerUp(phase)
    {
      ready := raw[Cell(1 - index, phase)] != 0;
    }
  }
}
