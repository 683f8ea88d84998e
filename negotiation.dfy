/** Choosing the container the recorder is asked for: the first entry of a
    fixed preference list that the browser reports as supported, with the
    first entry as a best-effort fallback. */
module Negotiation {

  /** The preference list, MP4 and QuickTime first because the analysis
      service accepts them without conversion. */
  const Preferred: seq<string> := ["video/mp4", "video/quicktime", "video/webm;codecs=vp8,opus", "video/webm"]

  /** What one call of `MediaRecorder.isTypeSupported(t)` does. */
  datatype Probe = Supported | Unsupported | Throws

  /** The browser as the negotiation sees it: whether `isTypeSupported` is a
      function at all, and what it answers for each type. */
  datatype Runtime = Runtime(probeIsFunction: bool, isTypeSupported: string -> Probe)

  /** A candidate is taken when the probe exists and answers true; a probe
      that throws counts as a refusal. */
  predicate Accepts(rt: Runtime, t: string)
  {
    rt.probeIsFunction && rt.isTypeSupported(t) == Supported
  }

  /** The position of the first accepted candidate, or `|cands|` when none is. */
  function FirstAccepted(rt: Runtime, cands: seq<string>): (k: nat)
    ensures k <= |cands|
    ensures k < |cands| ==> Accepts(rt, cands[k])
    ensures forall j :: 0 <= j < k ==> !Accepts(rt, cands[j])
  {
    if cands == [] then 0
    else if Accepts(rt, cands[0]) then 0
    else 1 + FirstAccepted(rt, cands[1..])
  }

  /** The type the recorder is created with. */
  function NegotiatedType(rt: Runtime): string
  {
    var k := FirstAccepted(rt, Preferred);
    if k < |Preferred| then Preferred[k] else Preferred[0]
  }

  /** The scan in `startRecording`: probe each preference in order, stop at
      the first one accepted, and fall back to the first preference. */
  method NegotiateType(rt: Runtime) returns (chosen: string)
    ensures chosen == NegotiatedType(rt)
  {
    chosen := "";
    for i := 0 to |Preferred|
      invariant chosen == ""
      invariant forall j :: 0 <= j < i ==> !Accepts(rt, Preferred[j])
    {
      if rt.probeIsFunction {
        var answer := rt.isTypeSupported(Preferred[i]);
        if answer == Supported {
          chosen := Preferred[i];
          assert FirstAccepted(rt, Preferred) == i;
          break;
        }
      }
    }
    if chosen == "" {
      chosen := Preferred[0];
    }
  }

  /** The negotiated type is always one of the preferences. */
  lemma NegotiatedIsPreferred(rt: Runtime)
    ensures NegotiatedType(rt) in Preferred
  {
  }

  /** The first accepted preference is the one chosen, so no preference
      before the chosen one is accepted. */
  lemma FirstAcceptedIsChosen(rt: Runtime, k: nat)
    requires k < |Preferred| && Accepts(rt, Preferred[k])
    requires forall j :: 0 <= j < k ==> !Accepts(rt, Preferred[j])
    ensures NegotiatedType(rt) == Preferred[k]
  {
  }

  /** When no preference is accepted (every probe refuses or throws, or there
      is no probe at all), the recorder is asked for `video/mp4`. */
  lemma FallbackIsFirstPreference(rt: Runtime)
    requires forall j :: 0 <= j < |Preferred| ==> !Accepts(rt, Preferred[j])
    ensures NegotiatedType(rt) == "video/mp4"
  {
  }

  lemma NoProbeFallsBack(rt: Runtime)
    requires !rt.probeIsFunction
    ensures NegotiatedType(rt) == "video/mp4"
  {
  }
}
