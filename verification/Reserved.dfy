/** The reserved `ktsu_` output fields and the air-lock check of a step's output. */
module Reserved {
  import opened Wrappers
  import opened Values

  const PREFIX := "ktsu_"

  predicate Flagged(raw: Object, field: string) {
    field in raw && raw[field] == Bool(true)
  }

  function Confidence(raw: Object): real {
    if "ktsu_confidence" in raw && raw["ktsu_confidence"].Num? then raw["ktsu_confidence"].n else 0.0
  }

  function SkipReason(raw: Object): string {
    if "ktsu_skip_reason" in raw && raw["ktsu_skip_reason"].Str? then raw["ktsu_skip_reason"].s else ""
  }

  function Strip(raw: Object): Object {
    map k | k in raw && !(PREFIX <= k) :: raw[k]
  }

  /** What the reserved fields decide: the step fails, is skipped, or keeps its other fields. */
  datatype Verdict = Reject(error: string) | Skip(clean: Object, reason: string) | Keep(clean: Object)

  function ProcessReservedFields(raw: Object, threshold: real): Verdict {
    if Flagged(raw, "ktsu_injection_attempt") then Reject("injection attempt detected")
    else if Flagged(raw, "ktsu_untrusted_content") then Reject("untrusted content detected")
    else if Flagged(raw, "ktsu_low_quality") then Reject("low quality output")
    else if Flagged(raw, "ktsu_needs_human") then Reject("needs_human_review")
    else if threshold > 0.0 && Confidence(raw) < threshold then Reject("confidence below threshold")
    else if SkipReason(raw) != "" then Skip(Strip(raw), SkipReason(raw))
    else Keep(Strip(raw))
  }

  /** The air-lock: no reserved field is left and every required field is there. */
  predicate Airlock(output: Object, required: seq<string>) {
    (forall k :: k in output ==> !(PREFIX <= k)) && (forall f :: f in required ==> f in output)
  }

  /**
   * After the reserved fields are processed the air-lock can only object to a missing field: it
   * passes exactly when every required field was delivered under an unreserved name.
   */
  lemma AirlockAfterReserved(raw: Object, threshold: real, required: seq<string>)
    ensures var v := ProcessReservedFields(raw, threshold);
      !v.Reject? ==>
        && (Airlock(v.clean, required) <==> forall f :: f in required ==> f in raw && !(PREFIX <= f))
        && (forall k :: k in raw && !(PREFIX <= k) ==> k in v.clean && v.clean[k] == raw[k])
        && v.clean.Keys <= raw.Keys
  {
  }

  // ---- the verdict, from the raw output alone ----

  predicate IsTrue(raw: Object, field: string) {
    field in raw && raw[field].Bool? && raw[field].b
  }

  /** The output reports an injection attempt, untrusted content, low quality, or that a human is needed. */
  predicate Warns(raw: Object) {
    || IsTrue(raw, "ktsu_injection_attempt") || IsTrue(raw, "ktsu_untrusted_content")
    || IsTrue(raw, "ktsu_low_quality") || IsTrue(raw, "ktsu_needs_human")
  }

  /** The output states this confidence; one that states none, or no number, counts as 0. */
  predicate States(raw: Object, confidence: real) {
    match if "ktsu_confidence" in raw then raw["ktsu_confidence"] else Null
    case Num(n) => confidence == n
    case _ => confidence == 0.0
  }

  /** A threshold is set, and the stated confidence is below it. */
  ghost predicate TooUnsure(raw: Object, threshold: real) {
    0.0 < threshold && exists confidence :: States(raw, confidence) && confidence < threshold
  }

  /** The output names a reason to skip the step. */
  predicate AsksToSkip(raw: Object) {
    "ktsu_skip_reason" in raw && raw["ktsu_skip_reason"].Str? && raw["ktsu_skip_reason"].s != ""
  }

  /** `clean` is `raw` without the fields whose name starts with `ktsu_`. */
  ghost predicate Unreserved(clean: Object, raw: Object) {
    && (forall k :: k in clean <==> k in raw && !("ktsu_" <= k))
    && (forall k :: k in clean ==> clean[k] == raw[k])
  }

  /**
   * The verdict exactly: an output that warns, or whose confidence is below a positive threshold,
   * is rejected; of the others one that gives a reason to skip is skipped, for that reason; the
   * rest is kept. What is passed on is the output without its reserved fields.
   */
  lemma VerdictExactly(raw: Object, threshold: real)
    ensures var v := ProcessReservedFields(raw, threshold);
      && (v.Reject? <==> Warns(raw) || TooUnsure(raw, threshold))
      && (v.Skip? <==> !Warns(raw) && !TooUnsure(raw, threshold) && AsksToSkip(raw))
      && (v.Skip? ==> v.reason == raw["ktsu_skip_reason"].s)
      && (!v.Reject? ==> Unreserved(v.clean, raw))
  {
    assert States(raw, Confidence(raw));
  }

  /** The warning that is reported is the first of the four. */
  lemma WarningExactly(raw: Object, threshold: real)
    ensures var v := ProcessReservedFields(raw, threshold);
      && (v == Reject("injection attempt detected") <==> IsTrue(raw, "ktsu_injection_attempt"))
      && (v == Reject("untrusted content detected") <==>
            IsTrue(raw, "ktsu_untrusted_content") && !IsTrue(raw, "ktsu_injection_attempt"))
      && (v == Reject("low quality output") <==>
            && IsTrue(raw, "ktsu_low_quality")
            && !IsTrue(raw, "ktsu_injection_attempt") && !IsTrue(raw, "ktsu_untrusted_content"))
      && (v == Reject("confidence below threshold") <==> !Warns(raw) && TooUnsure(raw, threshold))
  {
    VerdictExactly(raw, threshold);
    assert States(raw, Confidence(raw));
  }
}
