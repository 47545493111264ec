/** Idempotency keys as text: `build_key`, and when three fields glued with a separator
    can be told apart again. */
module Keys {
  import opened Domain

  function StepText(s: StepName): string {
    match s
    case FetchEmployee => "fetch_employee"
    case PlanDeprovisioning => "plan_deprovisioning"
    case AwaitHrApproval => "await_hr_approval"
    case RevokeAccess => "revoke_access"
    case SendExitPaperwork => "send_exit_paperwork"
    case AwaitSignedDocument => "await_signed_document"
    case Finalize => "finalize"
  }

  function BuildKey(runId: string, stepName: string, operation: string): string {
    runId + ":" + stepName + ":" + operation
  }

  function Render(k: Key): string {
    BuildKey(k.runId, StepText(k.stepName), k.operation)
  }

  /** `text[-12:]`. */
  function LastTwelve(text: string): string {
    if |text| <= 12 then text else text[|text| - 12..]
  }

  lemma TheLongerTailHoldsTheColon(a: string, b: string, x: string, y: string)
    requires a + ":" + x == b + ":" + y
    ensures |x| < |y| ==> ':' in y
  {
    var t := a + ":" + x;
    if |x| < |y| {
      assert t[|a|] == ':' && t[|a|] == y[|a| - |b| - 1];
    }
  }

  lemma SplitAtLastColon(a: string, b: string, x: string, y: string)
    requires a + ":" + x == b + ":" + y && ':' !in x && ':' !in y
    ensures a == b && x == y
  {
    TheLongerTailHoldsTheColon(a, b, x, y);
    TheLongerTailHoldsTheColon(b, a, y, x);
    var t := a + ":" + x;
    assert a == t[..|a|] == b;
    assert x == t[|a| + 1..] == y;
  }

  /** Two effects share a key only when run, step and operation all agree, whatever the
      run identifiers are: steps and operations, which the code spells out itself, hold no
      separator. */
  lemma KeysOfDistinctEffectsDiffer(r1: string, s1: string, o1: string, r2: string, s2: string, o2: string)
    requires ':' !in s1 && ':' !in o1 && ':' !in s2 && ':' !in o2
    ensures BuildKey(r1, s1, o1) == BuildKey(r2, s2, o2) <==> r1 == r2 && s1 == s2 && o1 == o2
  {
    if BuildKey(r1, s1, o1) == BuildKey(r2, s2, o2) {
      SplitAtLastColon(r1 + ":" + s1, r2 + ":" + s2, o1, o2);
      SplitAtLastColon(r1, r2, s1, s2);
    }
  }

  lemma LastTwelveOfSuffix(front: string, back: string)
    requires |back| == 12
    ensures LastTwelve(front + back) == back
  {
    assert (front + back)[|front|..] == back;
  }

  /** The twelve characters a receipt id is built from never reach back to the run
      id, so the three receipts carry the same id in every run. */
  lemma ReceiptIdsDoNotDependOnTheRun(runId: string)
    ensures LastTwelve(Render(Key(runId, RevokeAccess, "revoke_all_systems"))) == "_all_systems"
    ensures LastTwelve(Render(Key(runId, SendExitPaperwork, "send_packet"))) == ":send_packet"
    ensures LastTwelve(Render(Key(runId, Finalize, "archive"))) == "lize:archive"
  {
    var a := runId + ":" + "revoke_access" + ":" + "revoke";
    assert Render(Key(runId, RevokeAccess, "revoke_all_systems")) == a + "_all_systems";
    LastTwelveOfSuffix(a, "_all_systems");
    var b := runId + ":" + "send_exit_paperwork";
    assert Render(Key(runId, SendExitPaperwork, "send_packet")) == b + ":send_packet";
    LastTwelveOfSuffix(b, ":send_packet");
    var c := runId + ":" + "fina";
    assert Render(Key(runId, Finalize, "archive")) == c + "lize:archive";
    LastTwelveOfSuffix(c, "lize:archive");
  }
}
