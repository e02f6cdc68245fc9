/** The departure signal as the newest generation sees it (`Domain/Models/SignalInfo.cs`). */
module SignalInfos {
  import opened Wrappers

  /** Stop, or any aspect that allows the train to proceed. */
  datatype SignalAspect = Stop | Proceed

  /** `openedAt` is the wall-clock instant the signal cleared, if known (unused by `IsOpen`). */
  datatype SignalInfo = SignalInfo(aspect: SignalAspect, openedAt: Option<real>)
  {
    /** The signal is open when it does not show Stop. */
    predicate IsOpen() {
      aspect != SignalAspect.Stop
    }
  }

  /** With the two aspects, open means Proceed; Stop is never open. */
  lemma OpenIffProceed(s: SignalInfo)
    ensures s.IsOpen() <==> s.aspect == Proceed
    ensures s.aspect == Stop ==> !s.IsOpen()
  {
  }

  /** The opening time plays no part in `IsOpen`. */
  lemma OpenIgnoresOpenedAt(s: SignalInfo, at: Option<real>)
    ensures s.(openedAt := at).IsOpen() == s.IsOpen()
  {
  }
}
