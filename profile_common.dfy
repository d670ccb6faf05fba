/**
 * What the host-side Python helpers share: the exceptions their enum and
 * dictionary lookups raise, and the device type read from the profile.
 */
module ProfileCommon {
  import opened HalCommon

  /** The exceptions the helpers can raise. */
  datatype PyError = ValueError | KeyError | TypeError | IndexError

  /** `Enum(v).name` for an enum whose members are numbered 0, 1, ... in the order of `names`. */
  function EnumName(names: seq<string>, v: int): (r: Result<string, PyError>)
    ensures r.Ok? <==> 0 <= v < |names|
    ensures r.Ok? ==> r.value == names[v]
    ensures r.Err? ==> r.error == ValueError
  {
    if 0 <= v < |names| then Ok(names[v]) else Err(ValueError)
  }

  /** `xs` put in front of the list a later part of a loop builds, unless that part raised. */
  function Prepend<T>(xs: seq<T>, r: Result<seq<T>, PyError>): Result<seq<T>, PyError>
  {
    match r
    case Err(x) => Err(x)
    case Ok(rest) => Ok(xs + rest)
  }

  /** Prepending nothing changes nothing, and prepending twice is prepending the concatenation. */
  lemma PrependLaws<T>(xs: seq<T>, ys: seq<T>, r: Result<seq<T>, PyError>)
    ensures Prepend([], r) == r
    ensures Prepend(xs, Prepend(ys, r)) == Prepend(xs + ys, r)
  {
    if r.Ok? {
      assert [] + r.value == r.value;
      assert xs + (ys + r.value) == (xs + ys) + r.value;
    }
  }

  /** getDeviceType: the profile's "Type" field as the init menu's device type, None for anything else. */
  function DeviceType(t: Option<string>): (r: Option<int>)
    ensures r.Some? ==> r.value == 0 || r.value == 1
    ensures r.Some? ==> t == Some(DeviceTypeName(r.value))
  {
    if t == Some("sink") then Some(0) else if t == Some("source") then Some(1) else None
  }

  /** The profile's name for a device type number. */
  function DeviceTypeName(d: int): string
  {
    if d == 0 then "sink" else "source"
  }

  /** The two device types round-trip through their names. */
  lemma DeviceTypeRoundTrip(d: int)
    requires d == 0 || d == 1
    ensures DeviceType(Some(DeviceTypeName(d))) == Some(d)
  {
  }
}
