/**
 * Platform and device selection at startup (`getPlatforms`, `getDevices` and
 * the guarded section of `main` before the context is created).
 */
module DeviceSelection {
  import opened Numerics

  /** The result of an OpenCL enumeration: a list, possibly empty, or an error that is rethrown. */
  datatype Enumeration<T> = Listed(items: seq<T>) | Failed

  /** A platform with the GPU and accelerator devices it reports. */
  datatype Platform = Platform(devices: Enumeration<nat>)

  /** What startup leads to: a platform and device index, an exit code, or an uncaught exception. */
  datatype Selection = Selected(platform: nat, device: nat) | ExitCode(code: int) | Terminated

  /** Exit code `main` returns on every setup failure. */
  const SETUP_FAILURE: int := -1

  /** Selecting index `k` from a list of `n > 0` entries: `k` itself when valid, else the last. */
  function Clamp(k: nat, n: nat): (i: nat)
    requires n > 0
    ensures i < n
    ensures k < n ==> i == k
    ensures k >= n ==> i == n - 1
  {
    Min(k, n - 1)
  }

  lemma ClampIdempotent(k: nat, n: nat)
    requires n > 0
    ensures Clamp(Clamp(k, n), n) == Clamp(k, n)
  {
  }

  /**
   * The source's expression `min<T>(k, size - 1)`: the subtraction is done on
   * `size_t`; `T` is `unsigned` (32 bits) when `narrow` holds, else `size_t`.
   */
  function UnsignedMinLast(k: u32, n: nat, narrow: bool): (r: nat)
    ensures r <= k
    ensures r < n || r == k
  {
    var last := Wrap64(n - 1);
    Min(k, if narrow then Wrap32(last) else last)
  }

  function UnsignedMax(narrow: bool): (m: nat) {
    if narrow then TWO_32 - 1 else TWO_64 - 1
  }

  /** On a non-empty list the unsigned expression is exactly the clamp. */
  lemma UnsignedMinLastIsClamp(k: u32, n: nat, narrow: bool)
    requires 0 < n && n - 1 <= UnsignedMax(narrow)
    ensures UnsignedMinLast(k, n, narrow) == Clamp(k, n)
  {
  }

  /** On an empty list `size - 1` wraps to the type's maximum, so any valid `k` comes back unchanged: out of range. */
  lemma UnsignedMinLastOnEmpty(k: u32, narrow: bool)
    requires k <= UnsignedMax(narrow)
    ensures UnsignedMinLast(k, 0, narrow) == k
  {
    assert Wrap64(-1) == TWO_64 - 1;
    assert Wrap32(TWO_64 - 1) == TWO_32 - 1;
  }

  /** OpenCL reports platform and device counts as `cl_uint`. */
  ghost predicate CountsFit(platforms: Enumeration<Platform>) {
    platforms.Listed? ==>
      |platforms.items| < TWO_32 &&
      forall p :: p in platforms.items && p.devices.Listed? ==> |p.devices.items| < TWO_32
  }

  /**
   * `getPlatforms`, the empty-list guard, `getDevices(platforms, platformId)`,
   * the second empty-list guard and `devices[min<unsigned>(deviceId, size - 1)]`.
   */
  function Startup(platforms: Enumeration<Platform>, platformId: u32, deviceId: u32): (s: Selection)
    requires CountsFit(platforms)
    ensures s.ExitCode? ==> s.code == SETUP_FAILURE
    ensures s.Terminated? <==>
      platforms.Failed? ||
      (|platforms.items| > 0 && platforms.items[Clamp(platformId, |platforms.items|)].devices.Failed?)
    ensures s.ExitCode? <==>
      platforms.Listed? &&
      (|platforms.items| == 0 || platforms.items[Clamp(platformId, |platforms.items|)].devices == Listed([]))
    ensures s.Selected? ==>
      && platforms.Listed?
      && s.platform == Clamp(platformId, |platforms.items|)
      && platforms.items[s.platform].devices.Listed?
      && s.device == Clamp(deviceId, |platforms.items[s.platform].devices.items|)
  {
    match platforms
    case Failed => Terminated
    case Listed(ps) =>
      if |ps| == 0 then ExitCode(SETUP_FAILURE)
      else
        var p := UnsignedMinLast(platformId, |ps|, false);
        UnsignedMinLastIsClamp(platformId, |ps|, false);
        match ps[p].devices
        case Failed => Terminated
        case Listed(ds) =>
          if |ds| == 0 then ExitCode(SETUP_FAILURE)
          else
            assert ps[p] in ps;
            UnsignedMinLastIsClamp(deviceId, |ds|, true);
            Selected(p, UnsignedMinLast(deviceId, |ds|, true))
  }
}
