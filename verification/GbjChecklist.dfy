/** The GBJ vehicle checklist: the decision the client shows, and the one the server takes. */
module GbjChecklist {
  import opened Prelude

  datatype Severity = CriticalItem | ConditionalItem

  datatype Outcome = Pass | Reject

  datatype Mode = NormalPass | ApprovedWithDeviation | RejectedMode

  /** A photo string: whether it is a base64 image data URI, its MIME type, the length after the comma. */
  datatype Photo = Photo(dataUri: bool, mime: string, encoded: nat)

  const CHECKLIST_COUNT := 5
  const MIN_REASON := 10
  const MAX_PHOTO_BYTES := 2 * 1024 * 1024
  const ALLOWED_MIMES := ["image/jpeg", "image/png", "image/webp"]

  /** The policy both sides ship. */
  const SEVERITY: seq<Severity> := [CriticalItem, CriticalItem, ConditionalItem, CriticalItem, ConditionalItem]

  function ToLower(s: string): string {
    seq(|s|, i requires 0 <= i < |s| => if 'A' <= s[i] <= 'Z' then s[i] - 'A' + 'a' else s[i])
  }

  predicate PhotoAccepted(p: Photo) {
    && p.dataUri
    && ToLower(p.mime) in ALLOWED_MIMES
    && (p.encoded * 3 + 3) / 4 <= MAX_PHOTO_BYTES
  }

  predicate SameLetters(a: string, b: string) {
    |a| == |b| && forall i :: 0 <= i < |a| ==>
      a[i] == b[i] || ('A' <= a[i] <= 'Z' && b[i] as int == a[i] as int + 32)
  }

  /** A photo is a data URI of one of three kinds, written in either case, of at most 2 MiB once decoded. */
  lemma PhotoAcceptedIff(p: Photo)
    ensures PhotoAccepted(p) <==>
      && p.dataUri && p.encoded <= 2_796_202
      && (SameLetters(p.mime, "image/jpeg") || SameLetters(p.mime, "image/png") || SameLetters(p.mime, "image/webp"))
  {
    assert ALLOWED_MIMES[0] == "image/jpeg" && ALLOWED_MIMES[1] == "image/png" && ALLOWED_MIMES[2] == "image/webp";
    LowerIs(p.mime, "image/jpeg");
    LowerIs(p.mime, "image/png");
    LowerIs(p.mime, "image/webp");
  }

  lemma LowerIs(a: string, b: string)
    requires forall i :: 0 <= i < |b| ==> !('A' <= b[i] <= 'Z')
    ensures ToLower(a) == b <==> SameLetters(a, b)
  {}

  predicate IsCritical(severity: seq<Severity>, i: nat) {
    i < |severity| && severity[i] == CriticalItem
  }

  // ----- Server: submitGbjVehicleCheck -----

  /** A submitted item; ok is None when it is not a boolean. */
  datatype RawItem = RawItem(ok: Option<bool>, photo: Option<Photo>)

  datatype CheckedItem = CheckedItem(ok: bool, photo: Option<Photo>)

  datatype Request = Request(
    outcome: Outcome,
    mode: Option<Mode>,
    deviationReason: Option<string>,
    items: Option<seq<RawItem>>)

  datatype Decision = Decision(
    mode: Mode,
    outcome: Outcome,
    hasDeviation: bool,
    deviationReason: Option<string>,
    items: seq<CheckedItem>)

  datatype Refusal = MalformedChecklist | AmbiguousOutcome | ModeContradictsChecklist | CriticalFinding | ReasonTooShort

  predicate ItemValid(raw: RawItem) {
    raw.ok.Some? && (raw.ok.value || (raw.photo.Some? && PhotoAccepted(raw.photo.value)))
  }

  function Checked(raw: RawItem): CheckedItem
    requires ItemValid(raw)
  {
    CheckedItem(raw.ok.value, if raw.ok.value then None else raw.photo)
  }

  predicate ChecklistValid(items: Option<seq<RawItem>>) {
    && items.Some?
    && |items.value| == CHECKLIST_COUNT
    && forall i :: 0 <= i < |items.value| ==> ItemValid(items.value[i])
  }

  function CheckedItems(items: seq<RawItem>): (checked: seq<CheckedItem>)
    requires forall i :: 0 <= i < |items| ==> ItemValid(items[i])
    ensures |checked| == |items|
    ensures forall i :: 0 <= i < |items| ==> checked[i] == Checked(items[i])
  {
    seq(|items|, i requires 0 <= i < |items| => Checked(items[i]))
  }

  /** The validation loop: it stops at the first item that is not well formed. */
  method ValidateChecklist(items: Option<seq<RawItem>>) returns (r: Option<seq<CheckedItem>>)
    ensures r.Some? <==> ChecklistValid(items)
    ensures r.Some? ==> r.value == CheckedItems(items.value)
  {
    if items.None? || |items.value| != CHECKLIST_COUNT {
      return None;
    }
    var raw := items.value;
    var validated: seq<CheckedItem> := [];
    for i := 0 to |raw|
      invariant |validated| == i
      invariant forall k :: 0 <= k < i ==> ItemValid(raw[k]) && validated[k] == Checked(raw[k])
    {
      if raw[i].ok.None? {
        return None;
      }
      var photo: Option<Photo> := None;
      if !raw[i].ok.value {
        if raw[i].photo.None? || !PhotoAccepted(raw[i].photo.value) {
          return None;
        }
        photo := raw[i].photo;
      }
      validated := validated + [CheckedItem(raw[i].ok.value, photo)];
    }
    r := Some(validated);
  }

  predicate HasNotOk(items: seq<CheckedItem>) {
    exists i :: 0 <= i < |items| && !items[i].ok
  }

  predicate HasCriticalNotOk(severity: seq<Severity>, items: seq<CheckedItem>) {
    exists i :: 0 <= i < |items| && !items[i].ok && IsCritical(severity, i)
  }

  function EffectiveMode(r: Request, hasDeviation: bool): Option<Mode> {
    if r.mode.Some? then r.mode
    else if r.outcome == Pass && !hasDeviation then Some(NormalPass)
    else if r.outcome == Reject && hasDeviation then Some(RejectedMode)
    else None
  }

  function Decide(severity: seq<Severity>, r: Request): Result<Decision, Refusal> {
    if !ChecklistValid(r.items) then Err(MalformedChecklist)
    else
      var items := CheckedItems(r.items.value);
      var hasDeviation := HasNotOk(items);
      var mode := EffectiveMode(r, hasDeviation);
      if mode.None? then Err(AmbiguousOutcome)
      else match mode.value
        case NormalPass =>
          if hasDeviation then Err(ModeContradictsChecklist)
          else Ok(Decision(NormalPass, Pass, hasDeviation, None, items))
        case ApprovedWithDeviation =>
          if !hasDeviation then Err(ModeContradictsChecklist)
          else if HasCriticalNotOk(severity, items) then Err(CriticalFinding)
          else if r.deviationReason.None? || |Trim(r.deviationReason.value)| < MIN_REASON then Err(ReasonTooShort)
          else Ok(Decision(ApprovedWithDeviation, Pass, hasDeviation, Some(Trim(r.deviationReason.value)), items))
        case RejectedMode =>
          if !hasDeviation then Err(ModeContradictsChecklist)
          else Ok(Decision(RejectedMode, Reject, hasDeviation, None, items))
  }

  // ----- Client: evaluateGbjChecklist and buildGbjQcPayload -----

  datatype Answer = Unanswered | AnsweredOk | AnsweredNotOk

  datatype ItemState = ItemState(answer: Answer, photo: Option<Photo>)

  predicate Done(s: ItemState) {
    s.answer == AnsweredOk || (s.answer == AnsweredNotOk && s.photo.Some?)
  }

  function DoneCount(states: seq<ItemState>): nat {
    if states == [] then 0 else (if Done(states[0]) then 1 else 0) + DoneCount(states[1..])
  }

  datatype Evaluation = Evaluation(
    isComplete: bool,
    doneCount: nat,
    hasNotOk: bool,
    passed: bool,
    outcome: Outcome,
    hasCriticalNotOk: bool,
    canApproveWithDeviation: bool)

  function Evaluate(severity: seq<Severity>, states: seq<ItemState>): Evaluation {
    var done := DoneCount(states);
    var isComplete := |states| == CHECKLIST_COUNT && done == CHECKLIST_COUNT;
    var hasNotOk := exists i :: 0 <= i < |states| && states[i].answer == AnsweredNotOk;
    var passed := isComplete && !hasNotOk;
    var critical := exists i :: 0 <= i < |states| && states[i].answer == AnsweredNotOk && IsCritical(severity, i);
    Evaluation(isComplete, done, hasNotOk, passed, if passed then Pass else Reject, critical,
               isComplete && hasNotOk && !critical)
  }

  function Payload(
    severity: seq<Severity>, states: seq<ItemState>, mode: Option<Mode>, reason: Option<string>): Request
  {
    Request(
      Evaluate(severity, states).outcome,
      mode,
      if mode == Some(ApprovedWithDeviation) && reason.Some? && reason.value != "" then Some(Trim(reason.value))
      else None,
      Some(seq(|states|, i requires 0 <= i < |states| =>
        RawItem(Some(states[i].answer == AnsweredOk), states[i].photo))))
  }

  // ----- Agreement -----

  /** Photos are in the accepted format where the server looks at them: on items not answered ok. */
  ghost predicate PhotosAcceptable(states: seq<ItemState>) {
    forall i :: 0 <= i < |states| && states[i].answer != AnsweredOk && states[i].photo.Some? ==>
      PhotoAccepted(states[i].photo.value)
  }

  /** The family where the two sides part: every item is ok or carries a photo, but some were never answered. */
  ghost predicate PhotographedButUnanswered(states: seq<ItemState>) {
    && |states| == CHECKLIST_COUNT
    && (forall i :: 0 <= i < |states| ==> states[i].answer == AnsweredOk || states[i].photo.Some?)
    && exists i :: 0 <= i < |states| && states[i].answer == Unanswered
  }

  lemma {:induction false} DoneCountFull(states: seq<ItemState>)
    ensures DoneCount(states) <= |states|
    ensures DoneCount(states) == |states| <==> forall i :: 0 <= i < |states| ==> Done(states[i])
  {
    if states != [] {
      DoneCountFull(states[1..]);
      if forall i :: 0 <= i < |states[1..]| ==> Done(states[1..][i]) {
        assert forall i :: 1 <= i < |states| ==> states[i] == states[1..][i - 1];
      }
    }
  }

  /** What the server makes of a payload's items, in terms of the client's states. */
  lemma PayloadChecklist(severity: seq<Severity>, states: seq<ItemState>, mode: Option<Mode>, reason: Option<string>)
    requires PhotosAcceptable(states)
    ensures var items := Payload(severity, states, mode, reason).items;
      && (ChecklistValid(items) <==>
        |states| == CHECKLIST_COUNT
        && forall i :: 0 <= i < |states| ==> states[i].answer == AnsweredOk || states[i].photo.Some?)
      && (ChecklistValid(items) ==>
        forall i :: 0 <= i < |states| ==> CheckedItems(items.value)[i].ok == (states[i].answer == AnsweredOk))
  {
    var items := Payload(severity, states, mode, reason).items;
    assert |items.value| == |states|;
    forall i | 0 <= i < |states|
      ensures ItemValid(items.value[i]) <==> states[i].answer == AnsweredOk || states[i].photo.Some?
    {
      assert items.value[i] == RawItem(Some(states[i].answer == AnsweredOk), states[i].photo);
    }
    if |states| == CHECKLIST_COUNT
      && forall i :: 0 <= i < |states| ==> states[i].answer == AnsweredOk || states[i].photo.Some? {
      assert forall i :: 0 <= i < |items.value| ==> ItemValid(items.value[i]);
    }
    if ChecklistValid(items) {
      forall i | 0 <= i < |states|
        ensures states[i].answer == AnsweredOk || states[i].photo.Some?
      {
        assert ItemValid(items.value[i]);
      }
    }
  }

  /**
   * The server takes the client's default payload exactly when the client calls the checklist complete,
   * with the client's outcome; the one family of exceptions is an unanswered item that carries a photo.
   */
  lemma DefaultPayloadAgreement(severity: seq<Severity>, states: seq<ItemState>)
    requires PhotosAcceptable(states)
    ensures var d := Decide(severity, Payload(severity, states, None, None)); var e := Evaluate(severity, states);
      && ((d.Ok? <==> e.isComplete) <==> !PhotographedButUnanswered(states))
      && (e.isComplete ==> d.Ok?)
      && (d.Ok? ==> d.value.outcome == e.outcome && d.value.hasDeviation == !e.passed)
  {
    PayloadChecklist(severity, states, None, None);
    DoneCountFull(states);
    var r := Payload(severity, states, None, None);
    if ChecklistValid(r.items) {
      var items := CheckedItems(r.items.value);
      if HasNotOk(items) {
        var k :| 0 <= k < |items| && !items[k].ok;
        assert states[k].answer != AnsweredOk;
      } else {
        assert forall i :: 0 <= i < |states| ==> items[i].ok;
        assert Evaluate(severity, states).passed;
      }
    }
  }

  ghost predicate CriticalAllOk(severity: seq<Severity>, states: seq<ItemState>) {
    forall i :: 0 <= i < |states| && i < |severity| && severity[i] == CriticalItem ==> states[i].answer == AnsweredOk
  }

  /** The client offers approval with a deviation on a complete list with a finding, none of them on a critical item. */
  lemma DeviationOffered(severity: seq<Severity>, states: seq<ItemState>)
    ensures Evaluate(severity, states).canApproveWithDeviation <==>
      && |states| == CHECKLIST_COUNT && (forall i :: 0 <= i < |states| ==> Done(states[i]))
      && (exists i :: 0 <= i < |states| && states[i].answer == AnsweredNotOk)
      && forall i :: 0 <= i < |states| && i < |severity| && severity[i] == CriticalItem ==>
          states[i].answer != AnsweredNotOk
  {
    DoneCountFull(states);
    var e := Evaluate(severity, states);
    if !e.hasCriticalNotOk {
      forall i | 0 <= i < |states| && i < |severity| && severity[i] == CriticalItem
        ensures states[i].answer != AnsweredNotOk
      {
        assert IsCritical(severity, i);
      }
    }
  }

  /**
   * Approval with a deviation: the client offers it exactly when the server takes it with a long enough reason, but for
   * the same family: there the server takes it, reading the unanswered items as conditional findings.
   */
  lemma DeviationPayloadAgreement(severity: seq<Severity>, states: seq<ItemState>, reason: string)
    requires PhotosAcceptable(states)
    ensures var d := Decide(severity, Payload(severity, states, Some(ApprovedWithDeviation), Some(reason)));
      var long := |Trim(reason)| >= MIN_REASON;
      && ((d.Ok? <==> Evaluate(severity, states).canApproveWithDeviation && long)
          <==> !(long && PhotographedButUnanswered(states) && CriticalAllOk(severity, states)))
      && (Evaluate(severity, states).canApproveWithDeviation && long ==> d.Ok?)
      && (d.Ok? ==> d.value.outcome == Pass && d.value.deviationReason == Some(Trim(reason)))
  {
    var mode := Some(ApprovedWithDeviation);
    PayloadChecklist(severity, states, mode, Some(reason));
    DoneCountFull(states);
    TrimFixpoint(reason);
    var r := Payload(severity, states, mode, Some(reason));
    if ChecklistValid(r.items) {
      var items := CheckedItems(r.items.value);
      assert forall i :: 0 <= i < |states| ==> items[i].ok == (states[i].answer == AnsweredOk);
      assert HasCriticalNotOk(severity, items) <==> !CriticalAllOk(severity, states);
      var e := Evaluate(severity, states);
      if !PhotographedButUnanswered(states) {
        assert e.isComplete;
        assert HasNotOk(items) <==> e.hasNotOk;
        assert HasCriticalNotOk(severity, items) <==> e.hasCriticalNotOk;
      } else {
        var k :| 0 <= k < |states| && states[k].answer == Unanswered;
        assert !items[k].ok && !Done(states[k]);
      }
    }
  }

  /** Whatever a caller sends, a vehicle with a critical item that is not ok never passes. */
  lemma NoPassWithCriticalFinding(severity: seq<Severity>, r: Request, i: nat)
    requires r.items.Some? && i < |r.items.value| && r.items.value[i].ok != Some(true)
    requires i < |severity| && severity[i] == CriticalItem
    ensures var d := Decide(severity, r); d.Ok? ==> d.value.outcome == Reject
  {
    assert IsCritical(severity, i);
    if ChecklistValid(r.items) {
      assert !CheckedItems(r.items.value)[i].ok;
    }
  }

  /**
   * Conditional findings are approved with a reason: a well-formed checklist with findings is accepted as a deviation
   * exactly when no finding is critical and the reason is long enough.
   */
  lemma DeviationAcceptedIff(severity: seq<Severity>, r: Request)
    requires ChecklistValid(r.items) && r.mode == Some(ApprovedWithDeviation)
    requires exists i :: 0 <= i < |r.items.value| && r.items.value[i].ok == Some(false)
    ensures var d := Decide(severity, r);
      && (d.Ok? <==>
        && r.deviationReason.Some? && |Trim(r.deviationReason.value)| >= MIN_REASON
        && forall i :: 0 <= i < |r.items.value| && i < |severity| && r.items.value[i].ok == Some(false) ==>
            severity[i] == ConditionalItem)
      && (d.Ok? ==> d.value.outcome == Pass && d.value.mode == ApprovedWithDeviation && d.value.hasDeviation)
  {
    var items := CheckedItems(r.items.value);
    assert forall i :: 0 <= i < |items| ==> items[i].ok == (r.items.value[i].ok == Some(true));
    var k :| 0 <= k < |r.items.value| && r.items.value[k].ok == Some(false);
    assert !items[k].ok && HasNotOk(items);
    if HasCriticalNotOk(severity, items) {
      var i :| 0 <= i < |items| && !items[i].ok && IsCritical(severity, i);
      assert r.items.value[i].ok == Some(false) && severity[i] == CriticalItem;
    } else {
      forall i | 0 <= i < |r.items.value| && i < |severity| && r.items.value[i].ok == Some(false)
        ensures severity[i] == ConditionalItem
      {
        assert !items[i].ok && !IsCritical(severity, i);
      }
    }
  }

  /**
   * A plain pass needs a list without findings and a rejection one with them; a caller who names no mode is taken at
   * his word exactly when the list bears it out.
   */
  lemma PlainDecisions(severity: seq<Severity>, r: Request)
    requires ChecklistValid(r.items) && r.mode != Some(ApprovedWithDeviation)
    ensures var d := Decide(severity, r);
      var finding := exists i :: 0 <= i < |r.items.value| && r.items.value[i].ok == Some(false);
      && (r.mode == Some(NormalPass) ==> (d.Ok? <==> !finding) && (d.Ok? ==> d.value.outcome == Pass))
      && (r.mode == Some(RejectedMode) ==> (d.Ok? <==> finding) && (d.Ok? ==> d.value.outcome == Reject))
      && (r.mode == None ==>
        (d.Ok? <==> (r.outcome == Reject <==> finding)) && (d.Ok? ==> d.value.outcome == r.outcome))
  {
    var items := CheckedItems(r.items.value);
    assert forall i :: 0 <= i < |items| ==> items[i].ok == (r.items.value[i].ok == Some(true));
    if k: nat :| k < |r.items.value| && r.items.value[k].ok == Some(false) {
      assert !items[k].ok && HasNotOk(items);
    } else {
      assert forall i :: 0 <= i < |items| ==> items[i].ok;
    }
  }

  /** Under the policy pests, forbidden substances and chemicals reject; dirt and a missing cover may be approved. */
  lemma PolicyApplied(r: Request)
    requires ChecklistValid(r.items) && r.mode == Some(ApprovedWithDeviation)
    requires r.deviationReason.Some? && |Trim(r.deviationReason.value)| >= 10
    ensures var items := r.items.value;
      (Decide(SEVERITY, r).Ok? <==>
        && items[0].ok == items[1].ok == items[3].ok == Some(true)
        && (items[2].ok == Some(false) || items[4].ok == Some(false)))
  {
    var items := r.items.value;
    assert forall i :: 0 <= i < |items| ==> ItemValid(items[i]);
    if k: nat :| k < |items| && items[k].ok == Some(false) {
      DeviationAcceptedIff(SEVERITY, r);
    } else {
      assert forall i :: 0 <= i < |items| ==> CheckedItems(items)[i].ok;
    }
  }

  /**
   * A decision is consistent: a pass has no findings or is a reasoned deviation, a rejection has a finding with a
   * photo.
   */
  lemma DecisionConsistent(severity: seq<Severity>, r: Request)
    ensures var d := Decide(severity, r); d.Ok? ==>
      && (d.value.hasDeviation <==> exists i :: 0 <= i < CHECKLIST_COUNT && r.items.value[i].ok == Some(false))
      && (d.value.outcome == Reject ==> d.value.hasDeviation)
      && (d.value.outcome == Pass && d.value.hasDeviation ==>
          d.value.deviationReason.Some? && |d.value.deviationReason.value| >= MIN_REASON)
      && forall i :: 0 <= i < CHECKLIST_COUNT && r.items.value[i].ok == Some(false) ==>
          d.value.items[i].photo == r.items.value[i].photo && r.items.value[i].photo.Some?
  {
    if ChecklistValid(r.items) {
      var items := CheckedItems(r.items.value);
      assert forall i :: 0 <= i < |items| ==> items[i].ok == r.items.value[i].ok.value;
    }
  }

  /** The disagreement is real: five photographed items, one of them unanswered. */
  lemma UnansweredPhotoDisagreement()
    ensures var p := Photo(true, "image/png", 4);
      var states := [ItemState(AnsweredOk, None), ItemState(AnsweredOk, None), ItemState(Unanswered, Some(p)),
                     ItemState(AnsweredOk, None), ItemState(AnsweredOk, None)];
      && !Evaluate(SEVERITY, states).isComplete
      && Decide(SEVERITY, Payload(SEVERITY, states, None, None)).Ok?
  {
    var p := Photo(true, "image/png", 4);
    var states := [ItemState(AnsweredOk, None), ItemState(AnsweredOk, None), ItemState(Unanswered, Some(p)),
                   ItemState(AnsweredOk, None), ItemState(AnsweredOk, None)];
    assert ToLower("image/png") == "image/png";
    assert ALLOWED_MIMES[1] == "image/png";
    assert states[2].answer == Unanswered;
    assert PhotographedButUnanswered(states);
    assert !Done(states[2]);
    DoneCountFull(states);
    PayloadChecklist(SEVERITY, states, None, None);
    DefaultPayloadAgreement(SEVERITY, states);
  }
}
