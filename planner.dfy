/** The strategic planner: a per-target state machine over the session's targets, one
    focused target at a time. */
module Planner {
  import opened Wrappers
  import opened Session

  /** The targets that decide whether the mission is complete, in priority order. */
  const PriorityList: seq<string> := ["upi", "bank_account", "url", "ip"]

  /** The objectives handed to the focus oracle: every target but "ip". */
  const Candidates: seq<string> := ["upi", "bank_account", "url", "phone", "email", "ifsc"]

  /** The focus counts as set when it is a non-empty string. */
  predicate Truthy(focus: Option<string>) { focus.Some? && focus.value != "" }

  // ---------------------------------------------------------------------------
  // _check_success
  // ---------------------------------------------------------------------------

  /** The stored field each checkable target is read from. */
  const SuccessFields: map<string, string> := map["upi" := "upi", "bank_account" := "bank_account", "url" := "url", "ip" := "ip"]

  /** `_check_success`: the target maps to a stored field and that field is non-empty. */
  function CheckSuccess(data: LocalData, focus: string): (ok: bool)
    ensures ok <==> focus in PriorityList && focus in data.fields && data.fields[focus] != {}
  {
    if focus !in SuccessFields then false
    else
      var key := SuccessFields[focus];
      key in data.fields && data.fields[key] != {}
  }

  /** A "phone", "ifsc" or "email" focus is never a success, whatever has been extracted. */
  lemma UncheckableTargets(data: LocalData, focus: string)
    requires focus == "phone" || focus == "ifsc" || focus == "email"
    ensures !CheckSuccess(data, focus)
  {
    assert focus !in PriorityList;
  }

  // ---------------------------------------------------------------------------
  // _get_instruction_text
  // ---------------------------------------------------------------------------

  const StallText: string := "OBJECTIVE: Stall for time. Ask generic questions."
  const ChatNormallyText: string := "OBJECTIVE: Chat normally."

  const Prompts: map<string, string> := map[
    "upi" := "OBJECTIVE: Ask for their UPI ID (e.g., GooglePay/PhonePe) so you can send money. ",
    "bank_account" := "OBJECTIVE: Ask for their Bank Account Number and IFSC code.",
    "ifsc" := "OBJECTIVE: Ask them to confirm or resend the IFSC code due to a bank validation issue.",
    "phone" := "OBJECTIVE: Ask for their phone/WhatsApp number to coordinate the payment or call for confirmation.",
    "url" := "OBJECTIVE: Ask for a payment link or QR code.",
    "email" := "OBJECTIVE: Ask for their email ID to send a payment receipt or confirmation.",
    "ip" := "OBJECTIVE: Send them the 'Payment Receipt' link (Canary Token) and ask them to verify it."
  ]

  /** `_get_instruction_text`: the stall objective without a focus, the target's prompt for
      a known target, and "Chat normally" for anything else. */
  function InstructionText(focus: Option<string>): (text: string)
    ensures !Truthy(focus) ==> text == StallText
    ensures Truthy(focus) && focus.value in TargetKeys ==> text == Prompts[focus.value]
    ensures Truthy(focus) && focus.value !in TargetKeys ==> text == ChatNormallyText
  {
    if !Truthy(focus) then StallText
    else if focus.value in Prompts then Prompts[focus.value]
    else ChatNormallyText
  }

  /** Every target has a prompt of its own, distinct from the two fallbacks. */
  lemma PromptsAreSpecific(k: string)
    requires k in TargetKeys
    ensures InstructionText(Some(k)) != StallText && InstructionText(Some(k)) != ChatNormallyText
  {
    assert |StallText| == 49 && |ChatNormallyText| == 25;
    assert |Prompts["upi"]| == 81 && |Prompts["bank_account"]| == 59 && |Prompts["ifsc"]| == 86;
    assert |Prompts["phone"]| == 98 && |Prompts["url"]| == 45 && |Prompts["email"]| == 76;
    assert |Prompts["ip"]| == 89;
  }

  // ---------------------------------------------------------------------------
  // is_mission_complete
  // ---------------------------------------------------------------------------

  /** `is_mission_complete`: every priority target is present and terminal. */
  function IsMissionComplete(targets: map<string, Target>): (done: bool)
    ensures done <==> forall g :: g in PriorityList ==> g in targets && IsTerminal(targets[g].state)
  {
    AllTerminal(targets, PriorityList)
  }

  /** The loop of lines 112-117, returning early at the first goal that is not terminal. */
  function AllTerminal(targets: map<string, Target>, goals: seq<string>): (done: bool)
    ensures done <==> forall i :: 0 <= i < |goals| ==> goals[i] in targets && IsTerminal(targets[goals[i]].state)
  {
    if goals == [] then true
    else if !(goals[0] in targets && IsTerminal(targets[goals[0]].state)) then false
    else
      assert forall i :: 1 <= i < |goals| ==> goals[1..][i - 1] == goals[i];
      AllTerminal(targets, goals[1..])
  }

  /** Only the priority targets matter: two target maps that agree on them agree on
      whether the mission is complete. */
  lemma MissionIgnoresOtherTargets(a: map<string, Target>, b: map<string, Target>)
    requires forall g :: g in PriorityList ==> (g in a <==> g in b) && (g in a ==> a[g].state == b[g].state)
    ensures IsMissionComplete(a) == IsMissionComplete(b)
  {
  }

  /** A fresh session is not complete, and neither is one missing a priority target. */
  lemma MissingTargetIsNotTerminal(targets: map<string, Target>, g: string)
    requires g in PriorityList && g !in targets
    ensures !IsMissionComplete(targets)
  {
  }

  // ---------------------------------------------------------------------------
  // update_and_get_focus
  // ---------------------------------------------------------------------------

  /** The `KeyError` raised when the focus or the oracle's choice names no target. */
  datatype PlanError = MissingTarget(key: Option<string>)

  /** What `update_and_get_focus` returns. */
  datatype Plan = Plan(focus: Option<string>, targets: map<string, Target>, instruction: string)

  /** Step 1: the focused target succeeds, or spends one iteration and fails when none is
      left. Yields the targets and the focus after the step. */
  function CheckFocus(targets: map<string, Target>, focus: Option<string>, data: LocalData): Result<(map<string, Target>, Option<string>), PlanError>
  {
    if !Truthy(focus) then Ok((targets, focus))
    else
      var k := focus.value;
      if k !in targets then Err(MissingTarget(focus))
      else if CheckSuccess(data, k) then Ok((targets[k := Target(Success, 0)], None))
      else
        var t := targets[k];
        var spent := if t.remaining > 0 then Target(Initialized, t.remaining - 1) else t;
        if spent.remaining <= 0 then Ok((targets[k := Target(Failure, spent.remaining)], None))
        else Ok((targets[k := spent], focus))
  }

  /** Step 2: without a focus, the oracle's choice is focused with a fresh budget. */
  function SelectFocus(targets: map<string, Target>, focus: Option<string>, choice: Option<string>): Result<(map<string, Target>, Option<string>), PlanError>
  {
    if Truthy(focus) then Ok((targets, focus))
    else if choice.None? || choice.value !in targets then Err(MissingTarget(choice))
    else Ok((targets[choice.value := Target(Initialized, InitialRemaining)], choice))
  }

  /** `update_and_get_focus` given the oracle's choice of a new focus. */
  function PlanTurn(targets: map<string, Target>, focus: Option<string>, data: LocalData, choice: Option<string>): (r: Result<Plan, PlanError>)
    ensures r.Ok? ==> r.value.instruction == "" && r.value.targets.Keys == targets.Keys && r.value.focus.Some?
    ensures r.Err? <==>
      || (Truthy(focus) && focus.value !in targets)
      || (CheckFocus(targets, focus, data).Ok? && !Truthy(CheckFocus(targets, focus, data).value.1)
          && (choice.None? || choice.value !in targets))
  {
    match CheckFocus(targets, focus, data)
    case Err(e) => Err(e)
    case Ok((checked, after)) =>
      match SelectFocus(checked, after, choice)
      case Err(e) => Err(e)
      case Ok((selected, chosen)) => Ok(Plan(chosen, selected, ""))
  }

  /** A focus whose field is filled becomes a success with no iterations left, and the
      focus is cleared. */
  lemma SuccessClearsFocus(targets: map<string, Target>, k: string, data: LocalData)
    requires k != "" && k in targets && CheckSuccess(data, k)
    ensures var r := CheckFocus(targets, Some(k), data);
      r.Ok? && r.value.1 == None && k in r.value.0 && r.value.0[k] == Target(Success, 0)
  {
  }

  /** Without success, the counter drops by one when it is above zero and otherwise stays:
      it never increases and never goes below zero from a non-negative start. The target
      fails, and the focus is cleared, exactly when the counter is no longer positive. */
  lemma FailedCheckSpendsOne(targets: map<string, Target>, k: string, data: LocalData)
    requires k != "" && k in targets && !CheckSuccess(data, k)
    ensures var r := CheckFocus(targets, Some(k), data);
      var before := targets[k].remaining;
      && r.Ok? && k in r.value.0
      && r.value.0[k].remaining == (if before > 0 then before - 1 else before)
      && r.value.0[k].remaining <= before
      && (before >= 0 ==> r.value.0[k].remaining >= 0)
      && (r.value.0[k].state == Failure <==> r.value.0[k].remaining <= 0)
      && (r.value.0[k].state != Failure ==> r.value.0[k].state == Initialized)
      && (r.value.1 == None <==> r.value.0[k].remaining <= 0)
      && (r.value.1 != None ==> r.value.1 == Some(k))
  {
  }

  /** The success check touches only the focused target. */
  lemma CheckTouchesOnlyFocus(targets: map<string, Target>, focus: Option<string>, data: LocalData)
    requires CheckFocus(targets, focus, data).Ok?
    ensures var after := CheckFocus(targets, focus, data).value.0;
      after.Keys == targets.Keys
      && forall k :: k in targets && (!Truthy(focus) || k != focus.value) ==> after[k] == targets[k]
  {
  }

  /** A "phone", "ifsc" or "email" focus can only end in failure: after a check it is
      initialized or failed, never a success. */
  lemma UncheckableNeverSucceeds(targets: map<string, Target>, k: string, data: LocalData)
    requires (k == "phone" || k == "ifsc" || k == "email") && k in targets
    ensures var r := CheckFocus(targets, Some(k), data);
      r.Ok? && k in r.value.0 && (r.value.0[k].state == Initialized || r.value.0[k].state == Failure)
  {
    UncheckableTargets(data, k);
  }

  /** Without a focus, the oracle's choice becomes the focus with state initialized and
      three iterations, even when that target had already ended; a choice that names no
      target is the `KeyError`. */
  lemma SelectionResetsChoice(targets: map<string, Target>, focus: Option<string>, choice: Option<string>)
    requires !Truthy(focus)
    ensures var r := SelectFocus(targets, focus, choice);
      if choice.Some? && choice.value in targets then
        r == Ok((targets[choice.value := Target(Initialized, 3)], choice))
      else r.Err?
  {
  }

  /** A target freshly selected with three iterations fails on the third consecutive turn
      without success; the first two turns keep it in focus. */
  lemma ThirdMissFails(targets: map<string, Target>, k: string, d1: LocalData, d2: LocalData, d3: LocalData,
                       c1: Option<string>, c2: Option<string>)
    requires k != "" && k in targets && targets[k] == Target(Initialized, 3)
    requires !CheckSuccess(d1, k) && !CheckSuccess(d2, k) && !CheckSuccess(d3, k)
    ensures var p1 := PlanTurn(targets, Some(k), d1, c1);
      && p1.Ok? && p1.value.focus == Some(k) && p1.value.targets[k] == Target(Initialized, 2)
      && var p2 := PlanTurn(p1.value.targets, p1.value.focus, d2, c2);
      && p2.Ok? && p2.value.focus == Some(k) && p2.value.targets[k] == Target(Initialized, 1)
      && var r3 := CheckFocus(p2.value.targets, p2.value.focus, d3);
      && r3.Ok? && r3.value.1 == None && r3.value.0[k] == Target(Failure, 0)
  {
    FailedCheckSpendsOne(targets, k, d1);
    var p1 := PlanTurn(targets, Some(k), d1, c1);
    FailedCheckSpendsOne(p1.value.targets, k, d2);
    var p2 := PlanTurn(p1.value.targets, p1.value.focus, d2, c2);
    FailedCheckSpendsOne(p2.value.targets, k, d3);
  }

  /** "ip" is never offered to the focus oracle. */
  lemma IpNotACandidate()
    ensures "ip" !in Candidates && forall c :: c in Candidates ==> c in TargetKeys
  {
  }

  /** When the oracle picks among the objectives it is offered, "ip" never becomes the
      focus and its target keeps its state; so while "ip" is not terminal, as in a new
      session, no turn completes the mission, although "ip" is one of its goals. */
  lemma IpNeverPlanned(targets: map<string, Target>, focus: Option<string>, data: LocalData, choice: Option<string>)
    requires "ip" in targets && focus != Some("ip")
    requires choice.Some? ==> choice.value in Candidates
    requires PlanTurn(targets, focus, data, choice).Ok?
    ensures var p := PlanTurn(targets, focus, data, choice).value;
      && "ip" in p.targets && p.targets["ip"] == targets["ip"] && p.focus != Some("ip")
      && (!IsTerminal(targets["ip"].state) ==> !IsMissionComplete(p.targets))
  {
    IpNotACandidate();
    CheckTouchesOnlyFocus(targets, focus, data);
  }

  /** `update_and_get_focus` on the loaded session state. It rewrites the targets in place
      and leaves the state's own focus alone: the new focus only travels in the plan. When a
      `KeyError` ends the selection step, the success-check step's changes are already made. */
  method UpdateAndGetFocus(state: SessionState, choice: Option<string>) returns (plan: Result<Plan, PlanError>)
    modifies state
    ensures plan == PlanTurn(old(state.targets), old(state.focus), old(state.data), choice)
    ensures plan.Ok? ==> state.targets == plan.value.targets
    ensures plan.Err? ==>
      state.targets == (match CheckFocus(old(state.targets), old(state.focus), old(state.data))
                        case Ok((checked, _)) => checked
                        case Err(_) => old(state.targets))
    ensures state.id == old(state.id) && state.scamConfirmed == old(state.scamConfirmed)
    ensures state.persona == old(state.persona) && state.focus == old(state.focus)
    ensures state.data == old(state.data) && state.history == old(state.history)
  {
    var checked := CheckInPlace(state);
    if checked.Err? {
      return Err(checked.error);
    }
    var current := checked.value;
    if !Truthy(current) {
      if choice.None? || choice.value !in state.targets {
        return Err(MissingTarget(choice));
      }
      current := choice;
      var c := choice.value;
      ghost var before := state.targets;
      state.targets := state.targets[c := state.targets[c].(state := Initialized)];
      state.targets := state.targets[c := state.targets[c].(remaining := InitialRemaining)];
      var unused := InstructionText(current);
      assert state.targets == before[c := Target(Initialized, InitialRemaining)];
    }
    var instruction := "";
    plan := Ok(Plan(current, state.targets, instruction));
  }

  /** Step 1 of `update_and_get_focus` on the state's targets: the new focus, with the
      targets rewritten as `CheckFocus` says, or the `KeyError` with nothing changed. */
  method CheckInPlace(state: SessionState) returns (current: Result<Option<string>, PlanError>)
    modifies state
    ensures CheckFocus(old(state.targets), old(state.focus), old(state.data))
      == match current case Ok(f) => Ok((state.targets, f)) case Err(e) => Err(e)
    ensures current.Err? ==> state.targets == old(state.targets)
    ensures state.id == old(state.id) && state.scamConfirmed == old(state.scamConfirmed)
    ensures state.persona == old(state.persona) && state.focus == old(state.focus)
    ensures state.data == old(state.data) && state.history == old(state.history)
  {
    var focus := state.focus;
    if !Truthy(focus) {
      return Ok(focus);
    }
    var k := focus.value;
    if k !in state.targets {
      return Err(MissingTarget(focus));
    }
    if CheckSuccess(state.data, k) {
      state.targets := state.targets[k := state.targets[k].(state := Success)];
      state.targets := state.targets[k := state.targets[k].(remaining := 0)];
      assert state.targets == old(state.targets)[k := Target(Success, 0)];
      return Ok(None);
    }
    ghost var t := state.targets[k];
    ghost var spent := if t.remaining > 0 then Target(Initialized, t.remaining - 1) else t;
    if state.targets[k].remaining > 0 {
      state.targets := state.targets[k := state.targets[k].(remaining := state.targets[k].remaining - 1)];
      state.targets := state.targets[k := state.targets[k].(state := Initialized)];
    }
    assert state.targets == old(state.targets)[k := spent];
    if state.targets[k].remaining <= 0 {
      state.targets := state.targets[k := state.targets[k].(state := Failure)];
      assert state.targets == old(state.targets)[k := Target(Failure, spent.remaining)];
      return Ok(None);
    }
    return Ok(focus);
  }
}
