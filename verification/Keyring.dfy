/** LiveKit's keyring as the client fills it: four slots for the shared entry and for
    every registered identity. */
module Keyring {
  import opened SymbolicCrypto

  const KEYRING_SIZE := 4

  type Id = string
  type RoomKey = nat

  /** A slot of the shared entry (None) or of one identity. */
  datatype Slot = Slot(who: Option<Id>, index: int)

  type Slots = map<Slot, RoomKey>

  /** JavaScript's remainder keeps the sign of the generation. */
  function IndexOf(generation: int): int {
    if generation >= 0 then generation % KEYRING_SIZE else -((-generation) % KEYRING_SIZE)
  }

  datatype Call = Call(key: RoomKey, generation: int, ids: seq<Id>)

  predicate Registers(c: Call, who: Option<Id>) {
    who == None || who.value in c.ids
  }

  class GroupKeyProvider {
    var slots: Slots

    constructor ()
      ensures slots == map[]
    {
      slots := map[];
    }

    method OnSetEncryptionKey(key: RoomKey, who: Option<Id>, index: int)
      modifies this
      ensures slots == old(slots)[Slot(who, index) := key]
    {
      slots := slots[Slot(who, index) := key];
    }

    /** Every registered slot of that generation gets the key; no other slot changes. */
    method ApplyRoomKey(key: RoomKey, generation: int, ids: seq<Id>)
      modifies this
      ensures slots == Applied(old(slots), Call(key, generation, ids))
    {
      var index := IndexOf(generation);
      OnSetEncryptionKey(key, None, index);
      for i := 0 to |ids|
        invariant slots == Applied(old(slots), Call(key, generation, ids[..i]))
      {
        OnSetEncryptionKey(key, Some(ids[i]), index);
        AppliedOneMore(old(slots), key, generation, ids, i);
      }
      assert ids[..|ids|] == ids;
    }
  }

  function Targets(c: Call): set<Slot> {
    {Slot(None, IndexOf(c.generation))} + set id | id in c.ids :: Slot(Some(id), IndexOf(c.generation))
  }

  function Applied(slots: Slots, c: Call): Slots {
    map s | s in slots.Keys + Targets(c) :: if s in Targets(c) then c.key else slots[s]
  }

  lemma AppliedOneMore(slots: Slots, key: RoomKey, generation: int, ids: seq<Id>, i: nat)
    requires i < |ids|
    ensures Applied(slots, Call(key, generation, ids[..i]))[Slot(Some(ids[i]), IndexOf(generation)) := key] ==
              Applied(slots, Call(key, generation, ids[..i + 1]))
  {
    assert ids[..i + 1] == ids[..i] + [ids[i]];
    assert Targets(Call(key, generation, ids[..i + 1])) ==
             Targets(Call(key, generation, ids[..i])) + {Slot(Some(ids[i]), IndexOf(generation))};
  }

  function After(calls: seq<Call>): Slots {
    if calls == [] then map[] else Applied(After(calls[..|calls| - 1]), calls[|calls| - 1])
  }

  predicate Increasing(calls: seq<Call>) {
    forall i, j :: 0 <= i < j < |calls| ==> calls[i].generation < calls[j].generation
  }

  /** Call `i` wrote this slot and no later call did. */
  predicate LastWriter(calls: seq<Call>, i: nat, s: Slot) {
    && i < |calls| && s in Targets(calls[i])
    && forall j :: i < j < |calls| ==> s !in Targets(calls[j])
  }

  /** A slot holds what its last writer put there, and nothing else fills one. */
  lemma {:induction false} SlotHoldsLastWritten(calls: seq<Call>, s: Slot)
    ensures s in After(calls) <==> exists i: nat :: LastWriter(calls, i, s)
    ensures forall i: nat :: LastWriter(calls, i, s) ==> s in After(calls) && After(calls)[s] == calls[i].key
  {
    if calls != [] {
      var n := |calls| - 1;
      SlotHoldsLastWritten(calls[..n], s);
      if s in Targets(calls[n]) {
        assert LastWriter(calls, n, s);
      } else {
        forall i: nat
          ensures LastWriter(calls, i, s) <==> LastWriter(calls[..n], i, s)
        {}
      }
    }
  }

  /** While generations only grow, each of the last four is still in its slot with its
      own key, for the shared entry and for everybody registered at it: frames sealed
      under a slightly older key still decrypt. */
  lemma RecentGenerationsStay(calls: seq<Call>, slots: Slots, i: nat, who: Option<Id>)
    requires slots == After(calls) && Increasing(calls) && i < |calls| && Registers(calls[i], who)
    requires calls[|calls| - 1].generation - KEYRING_SIZE < calls[i].generation
    ensures var s := Slot(who, IndexOf(calls[i].generation)); s in slots && slots[s] == calls[i].key
  {
    var s := Slot(who, IndexOf(calls[i].generation));
    forall j | i < j < |calls|
      ensures s !in Targets(calls[j])
    {
      assert calls[j].generation <= calls[|calls| - 1].generation;
      SlotsApart(calls[i].generation, calls[j].generation);
    }
    assert LastWriter(calls, i, s);
    SlotHoldsLastWritten(calls, s);
  }

  lemma SlotsApart(g: int, h: int)
    requires g < h < g + KEYRING_SIZE
    ensures IndexOf(g) != IndexOf(h)
  {}

  /** The fifth one back is gone for everybody the newest registers. */
  lemma FourBackIsOverwritten(calls: seq<Call>, who: Option<Id>)
    requires calls != [] && calls[|calls| - 1].generation >= KEYRING_SIZE && Registers(calls[|calls| - 1], who)
    ensures var s := Slot(who, IndexOf(calls[|calls| - 1].generation - KEYRING_SIZE));
            s in After(calls) && After(calls)[s] == calls[|calls| - 1].key
  {
    assert LastWriter(calls, |calls| - 1, Slot(who, IndexOf(calls[|calls| - 1].generation)));
    SlotHoldsLastWritten(calls, Slot(who, IndexOf(calls[|calls| - 1].generation)));
  }
}
