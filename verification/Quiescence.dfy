/** `waitForProviderQuiescence`: 250 looks, 20 ms apart, at the provider's message counter. */
module Quiescence {
  import opened Options

  /** What one look sees: whether the signal ended its sleep, and what is there after it. */
  datatype Look = Look(aborted: bool, failed: bool, closed: bool, version: nat, probe: bool)

  /** The sleep throws on an abort, and the look after it on a lifecycle error. */
  predicate Throws(look: Look) {
    look.aborted || look.failed
  }

  /** The caller's settings; `quietTicks` is max(1, ceil(quiescenceMs / 20)). */
  datatype Settings = Settings(hasProbe: bool, requireRemoteClose: bool, quietTicks: nat)

  datatype Verdict = Returned(tick: nat) | Threw(tick: nat) | TimedOut

  const MAXIMUM_TICKS := 250

  function VersionBefore(start: nat, looks: seq<Look>, t: nat): nat
    requires t <= |looks|
  {
    if t == 0 then start else looks[t - 1].version
  }

  /** The last `n` looks up to `t` each saw the counter where the look before left it. */
  predicate QuietFor(start: nat, looks: seq<Look>, t: nat, n: nat)
    requires t < |looks|
  {
    n <= t + 1 && forall j :: t + 1 - n <= j <= t ==> looks[j].version == VersionBefore(start, looks, j)
  }

  predicate Settles(settings: Settings, start: nat, looks: seq<Look>, t: nat)
    requires t < |looks|
  {
    || looks[t].closed
    || (settings.hasProbe && looks[t].probe && !settings.requireRemoteClose)
    || (!settings.hasProbe && looks[t].version > 0 && QuietFor(start, looks, t, settings.quietTicks))
  }

  /** Nothing before look `t` ended the wait. */
  predicate StillWaiting(settings: Settings, start: nat, looks: seq<Look>, t: nat)
    requires t <= |looks|
  {
    forall j :: 0 <= j < t ==> !Throws(looks[j]) && !Settles(settings, start, looks, j)
  }

  /** How many looks in a row, ending before look `t`, saw no news. */
  function QuietRun(start: nat, looks: seq<Look>, t: nat): (n: nat)
    requires t <= |looks|
    ensures n <= t
  {
    if t == 0 || looks[t - 1].version != VersionBefore(start, looks, t - 1) then 0 else QuietRun(start, looks, t - 1) + 1
  }

  /** The run is long enough for `n` exactly when the last `n` looks saw no news. */
  lemma {:induction false} QuietRunIsQuiet(start: nat, looks: seq<Look>, t: nat, n: nat)
    requires t < |looks|
    ensures QuietRun(start, looks, t + 1) >= n <==> QuietFor(start, looks, t, n)
  {
    if n > 0 {
      if t > 0 {
        QuietRunIsQuiet(start, looks, t - 1, n - 1);
      }
      assert QuietFor(start, looks, t, n) ==> looks[t].version == VersionBefore(start, looks, t);
    }
  }

  /** The wait ends at the first look that shows an abort, an error or a settled call: the socket closed; or, with a probe, the
    probe said so; or, without one, something arrived and then nothing for the quiet time. Otherwise it times out. */
  method WaitForProviderQuiescence(settings: Settings, start: nat, looks: seq<Look>) returns (verdict: Verdict)
    requires |looks| == MAXIMUM_TICKS && settings.quietTicks >= 1
    ensures match verdict
      case Threw(t) => t < |looks| && Throws(looks[t]) && StillWaiting(settings, start, looks, t)
      case Returned(t) =>
        t < |looks| && !Throws(looks[t]) && Settles(settings, start, looks, t) && StillWaiting(settings, start, looks, t)
      case TimedOut => StillWaiting(settings, start, looks, |looks|)
  {
    var observedVersion, quietTicks := start, 0;
    for tick := 0 to |looks|
      invariant StillWaiting(settings, start, looks, tick)
      invariant observedVersion == VersionBefore(start, looks, tick)
      invariant quietTicks == QuietRun(start, looks, tick)
    {
      if looks[tick].aborted {
        return Threw(tick);
      }
      if looks[tick].failed {
        return Threw(tick);
      }
      if looks[tick].closed {
        return Returned(tick);
      }
      if looks[tick].version == observedVersion {
        quietTicks := quietTicks + 1;
      } else {
        observedVersion, quietTicks := looks[tick].version, 0;
      }
      if looks[tick].probe && settings.hasProbe && !settings.requireRemoteClose {
        return Returned(tick);
      }
      QuietRunIsQuiet(start, looks, tick, settings.quietTicks);
      hide QuietFor, QuietRun;
      if !settings.hasProbe && observedVersion > 0 && quietTicks >= settings.quietTicks {
        return Returned(tick);
      }
    }
    return TimedOut;
  }

  /** Without a probe a call that ends by quiet had heard something, and heard nothing new for the whole quiet time. */
  lemma QuietMeansNoNews(settings: Settings, start: nat, looks: seq<Look>, t: nat, j: nat)
    requires t < |looks| && Settles(settings, start, looks, t) && !looks[t].closed && !settings.hasProbe
    requires t + 1 - settings.quietTicks <= j <= t
    ensures looks[t].version > 0 && looks[j].version == looks[t].version
    decreases t - j
  {
    if j < t {
      QuietMeansNoNews(settings, start, looks, t, j + 1);
      assert looks[j + 1].version == VersionBefore(start, looks, j + 1);
    }
  }
}
