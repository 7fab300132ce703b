/** The verdict that the observer can come to. */
module CtOutcome {
  import opened CtServer
  import opened CtSystem
  import opened CtAgreement
  import opened CtNancy
  import opened CtProgress

  /** From any initial colours, red or blue, there is a run after which Nancy approves, whatever her patience: a
      verdict on the messages she then holds can be no other. */
  lemma NancyCanApprove(colors: seq<string>, required: string) returns (run: seq<State>)
    requires |colors| > 0 && forall i :: 0 <= i < |colors| ==> colors[i] == "red" || colors[i] == "blue"
    requires required != "" ==> forall i :: 0 <= i < |colors| ==> colors[i] == required
    ensures |run| > 0 && IsRun(colors, run) && |Last(run).inbox| == |colors|
    ensures forall v :: Judges(|colors|, required, Messages(Last(run).inbox), v) ==> v.Approved? && v.received > |colors| / 2
  {
    var c;
    run, c := EverybodyDecides(colors);
    hide IsRun;
    forall v | Judges(|colors|, required, Messages(Last(run).inbox), v)
      ensures v.Approved? && v.received > |colors| / 2
    {
      NancyVerdict(colors, run, |run| - 1, required, v);
    }
  }
}
