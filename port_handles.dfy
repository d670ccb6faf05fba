/**
 * Port lookup shared by the device-settings HALs: a platform lists its
 * ports by type and index, a get-port call finds an entry of that list,
 * and the handle it gives out stands for the entry's position.
 */
module PortHandles {
  import opened HalCommon

  /** A port as the platform names it: its type and its index within that type. */
  datatype PortId = PortId(typeId: int, index: int)

  /** No port is listed twice. */
  predicate Distinct(ids: seq<PortId>)
  {
    forall i, j :: 0 <= i < j < |ids| ==> ids[i] != ids[j]
  }

  /** The position of the first entry naming `id`. */
  function FindPort(ids: seq<PortId>, id: PortId): (r: Option<nat>)
    ensures r.Some? ==> r.value < |ids| && ids[r.value] == id
    ensures r.Some? ==> forall j :: 0 <= j < r.value ==> ids[j] != id
    ensures r.None? ==> forall j :: 0 <= j < |ids| ==> ids[j] != id
    decreases |ids|
  {
    if |ids| == 0 then None
    else if ids[0] == id then Some(0)
    else match FindPort(ids[1..], id)
      case None => None
      case Some(k) => Some(k + 1)
  }

  /** In a list without repeats a port name stands for one position only. */
  lemma NamedOnlyAt(ids: seq<PortId>, i: nat, position: nat)
    requires Distinct(ids) && i < |ids| && position < |ids| && ids[position] == ids[i]
    ensures position == i
  {
  }

  /** In a list without repeats every entry is found at its own position. */
  lemma FindsEachPort(ids: seq<PortId>, i: nat)
    requires Distinct(ids) && i < |ids|
    ensures FindPort(ids, ids[i]) == Some(i)
  {
  }

  /** Whether some entry has this type. */
  predicate HasType(ids: seq<PortId>, typeId: int)
  {
    exists i :: 0 <= i < |ids| && ids[i].typeId == typeId
  }

  /** The handle given out for the entry at `position`: never 0 or -1, the handles the tests use as invalid. */
  function HandleOf(position: nat): (h: int)
    ensures h >= 1
  {
    position + 1
  }

  /** The position a handle stands for, when it is one given out for a list of `count` entries. */
  function PositionOf(handle: int, count: nat): (r: Option<nat>)
    ensures r.Some? <==> exists position: nat :: position < count && HandleOf(position) == handle
    ensures r.Some? ==> r.value < count && HandleOf(r.value) == handle
  {
    if 1 <= handle <= count then
      assert HandleOf(handle - 1) == handle;
      Some(handle - 1)
    else None
  }
}
