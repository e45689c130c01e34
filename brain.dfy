/** The agent's turn: loading the session, classifying, merging findings, planning,
    generating, the safety retry, saving the history entry and the final report, over a
    store of session documents. The services a turn consults answer through parameters;
    every call to them and every store write is recorded in a log. */
module Brain {
  import opened Wrappers
  import opened Session
  import opened Llm
  import opened Intel
  import opened Planner

  /** The inputs a reply is requested with: the model receives `Messages` of them, whose
      layout `MessagesLayout` states. */
  datatype Request = Request(history: seq<Turn>, persona: string, objective: string, text: string)

  /** One call to the store or to a service, in the order the turn makes them. */
  datatype Event =
    | FindSession(id: string)
    | InsertSession(id: string)
    | Classify(text: string)
    | SetConfirmed(id: string, persona: string)
    | ExtractInformation(text: string)
    | AddToSet(id: string, updates: Updates)
    | ScheduleExtraction(id: string, text: string)
    | ExtractEntities(text: string)
    | SetPlan(id: string, targets: map<string, Target>, focus: Option<string>)
    | Generate(request: Request)
    | CheckSafety(reply: string)
    | PushHistory(id: string, turn: Turn)
    | SubmitReport(id: string)

  /** What the services answer during one turn: the classifier's completion, the findings
      of the extraction step, the focus oracle's choice, the reply completion, the safety
      verdict's completion and the completion of the retry. */
  datatype TurnAnswers = TurnAnswers(
    classification: Option<string>,
    intel: Dict<RawValue>,
    focusChoice: Option<string>,
    firstCompletion: Option<string>,
    safetyVerdict: Option<string>,
    secondCompletion: Option<string>)

  const UnsafeWarning: string := "Previous reply was unsafe. Be safer."

  /** The document a turn works on: the stored one, or a new one. */
  function Loaded(id: string, store: map<string, SessionDoc>): SessionDoc {
    if id in store then store[id] else NewSessionDoc(id)
  }

  /** The store calls of `get_or_create_session`: a lookup, and an insert for a new id. */
  function LoadEvents(id: string, store: map<string, SessionDoc>): seq<Event> {
    if id in store then [FindSession(id)] else [FindSession(id), InsertSession(id)]
  }

  /** What a turn returns, the calls it makes after loading the session, and the stored
      document it leaves. */
  datatype Outcome = Outcome(reply: Result<string, PlanError>, events: seq<Event>, doc: SessionDoc)

  /** The calls a step makes and the stored document it leaves. */
  datatype Step = Step(events: seq<Event>, doc: SessionDoc)

  /** The number of replies generated. */
  function Generations(events: seq<Event>): (n: nat)
    ensures n <= |events|
  {
    if events == [] then 0
    else Generations(events[..|events| - 1]) + (if events[|events| - 1].Generate? then 1 else 0)
  }

  lemma {:induction false} GenerationsConcat(a: seq<Event>, b: seq<Event>)
    ensures Generations(a + b) == Generations(a) + Generations(b)
    decreases |b|
  {
    if b == [] {
      assert a + b == a;
    } else {
      assert (a + b)[..|a + b| - 1] == a + b[..|b| - 1];
      GenerationsConcat(a, b[..|b| - 1]);
    }
  }

  lemma GenerationsSingle(e: Event)
    ensures Generations([e]) == if e.Generate? then 1 else 0
  {
    assert [e][..0] == [];
  }

  /** Regrouping a log that grew by four pieces after `start`. */
  lemma Regroup(start: seq<Event>, b: seq<Event>, c: seq<Event>, d: seq<Event>, e: seq<Event>)
    ensures start + b + c + d + e == start + (b + c + d + e)
  {
  }

  /** Regrouping a log that grew by two pieces after `start`. */
  lemma RegroupTwo(start: seq<Event>, b: seq<Event>, c: seq<Event>)
    ensures start + b + c == start + (b + c)
  {
  }

  /** A second write under the same id replaces the first. */
  lemma OverwriteStored(store: map<string, SessionDoc>, id: string, first: SessionDoc, second: SessionDoc)
    ensures store[id := first][id := second] == store[id := second]
  {
  }

  /** Steps of a turn that never reach the model for a reply. */
  predicate Quiet(events: seq<Event>) {
    forall i :: 0 <= i < |events| ==> !events[i].Generate? && !events[i].PushHistory? && !events[i].SubmitReport? && !events[i].SetPlan?
  }

  lemma {:induction false} QuietHasNoGenerations(a: seq<Event>)
    requires Quiet(a)
    ensures Generations(a) == 0
    decreases |a|
  {
    if a != [] {
      assert Quiet(a[..|a| - 1]);
      QuietHasNoGenerations(a[..|a| - 1]);
    }
  }

  /** Lines 85-94 when the scam is unconfirmed and the classifier flags the message: the
      classification, then the confirmation with the persona picked. Nothing for a session
      already confirmed. */
  function ConfirmStep(doc: SessionDoc, text: string, persona: string): (s: Step)
    ensures Quiet(s.events)
    ensures doc.scamConfirmed ==> s == Step([], doc)
    ensures !doc.scamConfirmed ==> s.doc == doc.(scamConfirmed := true, persona := persona)
  {
    if doc.scamConfirmed then Step([], doc)
    else Step([Classify(text), SetConfirmed(doc.id, persona)], doc.(scamConfirmed := true, persona := persona))
  }

  /** Lines 114-125: the extraction request, whose answer is `intel`, the findings written
      when anything survives normalisation, and the background job when there is one. */
  function FindingsStep(doc: SessionDoc, text: string, intel: Dict<RawValue>, background: bool): (s: Step)
    ensures |s.events| > 0 && s.events[0] == ExtractInformation(text)
    ensures Quiet(s.events)
    ensures forall i :: 0 <= i < |s.events| ==> !s.events[i].Classify? && !s.events[i].SetConfirmed?
    ensures s.doc == doc.(data := StoredAfter(doc.data, intel))
  {
    var c := Normalize(intel);
    var events :=
      if HasNewData(c) then
        if background then [ExtractInformation(text), AddToSet(doc.id, UpdatesOf(c)), ScheduleExtraction(doc.id, text)]
        else [ExtractInformation(text), AddToSet(doc.id, UpdatesOf(c))]
      else if background then [ExtractInformation(text), ScheduleExtraction(doc.id, text)] else [ExtractInformation(text)];
    Step(events, doc.(data := StoredAfter(doc.data, intel)))
  }

  /** Lines 142-160: a reply for the objective, the safety check of it, and one retry with
      a warning in front of the objective when the safety check fails. */
  function Replies(history: seq<Turn>, persona: string, objective: string, text: string, a: TurnAnswers): (g: (string, seq<Event>))
    ensures Generations(g.1) == (if SafetyCheck(a.safetyVerdict) then 1 else 2)
    ensures g.0 == if SafetyCheck(a.safetyVerdict) then ReplyOf(a.firstCompletion) else ReplyOf(a.secondCompletion)
    ensures forall i :: 0 <= i < |g.1| ==> g.1[i].Generate? || g.1[i].CheckSafety?
    ensures |g.1| > 0 && g.1[0] == Generate(Request(history, persona, objective, text))
    ensures !SafetyCheck(a.safetyVerdict) ==> g.1[|g.1| - 1] == Generate(Request(history, persona, UnsafeWarning + objective, text))
  {
    var first := ReplyOf(a.firstCompletion);
    var firstCall := [Generate(Request(history, persona, objective, text)), CheckSafety(first)];
    assert Generations(firstCall) == 1 by {
      assert firstCall[..1] == [firstCall[0]];
    }
    if SafetyCheck(a.safetyVerdict) then (first, firstCall)
    else
      var retry := [Generate(Request(history, persona, UnsafeWarning + objective, text))];
      GenerationsConcat(firstCall, retry);
      (ReplyOf(a.secondCompletion), firstCall + retry)
  }

  /** The chatting turn of lines 95-106. */
  function ChatTurn(doc: SessionDoc, text: string, a: TurnAnswers): Outcome {
    var reply := ReplyOf(a.firstCompletion);
    Outcome(Ok(reply),
      [Classify(text), Generate(Request(doc.history, doc.persona, "", text)), PushHistory(doc.id, Turn(text, reply))],
      doc.(history := doc.history + [Turn(text, reply)]))
  }

  /** Lines 133-171 once a plan is made: the plan saved, the reply and its check, the
      history entry, and the report when the mission is complete. */
  function Closing(id: string, history: seq<Turn>, persona: string, plan: Plan, text: string, a: TurnAnswers): (string, seq<Event>)
  {
    var (reply, generation) := Replies(history, persona, plan.instruction, text, a);
    var report := if IsMissionComplete(plan.targets) then [SubmitReport(id)] else [];
    (reply, [SetPlan(id, plan.targets, plan.focus)] + generation + [PushHistory(id, Turn(text, reply))] + report)
  }

  /** Lines 114-173 on a confirmed session: the findings, the plan, and, when planning
      succeeds, the closing calls. */
  function AfterConfirmation(doc: SessionDoc, text: string, a: TurnAnswers, background: bool): Outcome
  {
    var f := FindingsStep(doc, text, a.intel, background);
    match PlanTurn(doc.targets, doc.focus, LocalAfter(LocalOf(doc.data), a.intel), a.focusChoice)
    case Err(e) => Outcome(Err(e), f.events, f.doc)
    case Ok(plan) =>
      var (reply, closing) := Closing(doc.id, doc.history, doc.persona, plan, text, a);
      Outcome(Ok(reply), f.events + closing,
        f.doc.(targets := plan.targets, focus := plan.focus, history := doc.history + [Turn(text, reply)]))
  }

  /** `AfterConfirmation` once planning has produced `plan`. */
  lemma AfterConfirmationOk(doc: SessionDoc, text: string, a: TurnAnswers, background: bool, plan: Plan)
    requires PlanTurn(doc.targets, doc.focus, LocalAfter(LocalOf(doc.data), a.intel), a.focusChoice) == Ok(plan)
    ensures var f := FindingsStep(doc, text, a.intel, background);
      var c := Closing(doc.id, doc.history, doc.persona, plan, text, a);
      AfterConfirmation(doc, text, a, background)
        == Outcome(Ok(c.0), f.events + c.1, f.doc.(targets := plan.targets, focus := plan.focus, history := doc.history + [Turn(text, c.0)]))
  {
  }

  /** Lines 85-173 once the classifier or an earlier turn has flagged the scam. */
  function ConfirmedTurn(doc: SessionDoc, text: string, a: TurnAnswers, persona: string, background: bool): Outcome
  {
    var c := ConfirmStep(doc, text, persona);
    var o := AfterConfirmation(c.doc, text, a, background);
    Outcome(o.reply, c.events + o.events, o.doc)
  }

  /** `process_turn` on the loaded document `doc`, with `persona` the style picked should
      this turn confirm the scam. */
  function TurnOutcome(doc: SessionDoc, text: string, a: TurnAnswers, persona: string, background: bool): Outcome
  {
    if !doc.scamConfirmed && !ClassifyScam(a.classification) then ChatTurn(doc, text, a)
    else ConfirmedTurn(doc, text, a, persona, background)
  }

  /** `TurnOutcome` on a flagged or confirmed session, written out. */
  lemma ConfirmedOutcome(doc: SessionDoc, text: string, a: TurnAnswers, persona: string, background: bool)
    requires doc.scamConfirmed || ClassifyScam(a.classification)
    ensures var c := ConfirmStep(doc, text, persona);
      var o := AfterConfirmation(c.doc, text, a, background);
      TurnOutcome(doc, text, a, persona, background) == Outcome(o.reply, c.events + o.events, o.doc)
  {
  }

  /** `TurnOutcome` on a session the classifier leaves unflagged, written out. */
  lemma ChatOutcome(doc: SessionDoc, text: string, a: TurnAnswers, persona: string, background: bool)
    requires !doc.scamConfirmed && !ClassifyScam(a.classification)
    ensures var reply := ReplyOf(a.firstCompletion);
      TurnOutcome(doc, text, a, persona, background)
        == Outcome(Ok(reply), [Classify(text)] + [Generate(Request(doc.history, doc.persona, "", text)), PushHistory(doc.id, Turn(text, reply))],
                   doc.(history := doc.history + [Turn(text, reply)]))
  {
    var reply := ReplyOf(a.firstCompletion);
    assert [Classify(text)] + [Generate(Request(doc.history, doc.persona, "", text)), PushHistory(doc.id, Turn(text, reply))]
      == [Classify(text), Generate(Request(doc.history, doc.persona, "", text)), PushHistory(doc.id, Turn(text, reply))];
  }

  /** On a session confirmed earlier, the turn is `AfterConfirmation` itself. */
  lemma AlreadyConfirmedOutcome(doc: SessionDoc, text: string, a: TurnAnswers, persona: string, background: bool)
    requires doc.scamConfirmed
    ensures TurnOutcome(doc, text, a, persona, background) == AfterConfirmation(doc, text, a, background)
  {
    assert [] + AfterConfirmation(doc, text, a, background).events == AfterConfirmation(doc, text, a, background).events;
  }

  /** While the scam is unconfirmed and the classifier does not flag the message, the turn
      only chats: one reply with an empty objective, one history entry, and no extraction,
      planning or report. */
  lemma ChatTurnOnlyReplies(doc: SessionDoc, text: string, a: TurnAnswers, persona: string, background: bool)
    requires !doc.scamConfirmed && !ClassifyScam(a.classification)
    ensures var o := TurnOutcome(doc, text, a, persona, background);
      && o.reply == Ok(ReplyOf(a.firstCompletion))
      && o.doc == doc.(history := doc.history + [Turn(text, ReplyOf(a.firstCompletion))])
      && (forall i :: 0 <= i < |o.events| ==> o.events[i].Classify? || o.events[i].Generate? || o.events[i].PushHistory?)
      && Generations(o.events) == 1
      && o.events[1] == Generate(Request(doc.history, doc.persona, "", text))
  {
    var reply := ReplyOf(a.firstCompletion);
    var m := Request(doc.history, doc.persona, "", text);
    GenerationsSingle(Classify(text));
    GenerationsSingle(Generate(m));
    GenerationsSingle(PushHistory(doc.id, Turn(text, reply)));
    GenerationsConcat([Classify(text)], [Generate(m)]);
    GenerationsConcat([Classify(text), Generate(m)], [PushHistory(doc.id, Turn(text, reply))]);
    assert [Classify(text)] + [Generate(m)] == [Classify(text), Generate(m)];
    assert TurnOutcome(doc, text, a, persona, background).events == [Classify(text), Generate(m)] + [PushHistory(doc.id, Turn(text, reply))];
  }

  /** The closing calls keep the last reply generated: once when the safety check passes,
      twice when it fails. */
  lemma ClosingGenerations(id: string, history: seq<Turn>, persona: string, plan: Plan, text: string, a: TurnAnswers)
    ensures var (reply, e) := Closing(id, history, persona, plan, text, a);
      && reply == (if SafetyCheck(a.safetyVerdict) then ReplyOf(a.firstCompletion) else ReplyOf(a.secondCompletion))
      && Generations(e) == (if SafetyCheck(a.safetyVerdict) then 1 else 2)
  {
    var (reply, generation) := Replies(history, persona, plan.instruction, text, a);
    var report := if IsMissionComplete(plan.targets) then [SubmitReport(id)] else [];
    var setPlan := [SetPlan(id, plan.targets, plan.focus)];
    var push := [PushHistory(id, Turn(text, reply))];
    assert Generations(setPlan) == 0 by { assert setPlan[..0] == []; }
    assert Generations(push) == 0 by { assert push[..0] == []; }
    assert Generations(report) == 0 by { assert report == [] || report[..0] == []; }
    GenerationsConcat(setPlan, generation);
    GenerationsConcat(setPlan + generation, push);
    GenerationsConcat(setPlan + generation + push, report);
  }

  /** The closing calls start by saving the plan, and never classify or confirm. */
  lemma ClosingStartsWithPlan(id: string, history: seq<Turn>, persona: string, plan: Plan, text: string, a: TurnAnswers)
    ensures var e := Closing(id, history, persona, plan, text, a).1;
      && |e| > 0 && e[0] == SetPlan(id, plan.targets, plan.focus)
      && forall i :: 0 <= i < |e| ==> !e[i].Classify? && !e[i].SetConfirmed?
  {
    var (reply, generation) := Replies(history, persona, plan.instruction, text, a);
    var e := Closing(id, history, persona, plan, text, a).1;
    forall i | 0 < i <= |generation| ensures e[i] == generation[i - 1] {
    }
  }

  /** The report is among the closing calls iff the mission is complete, and then last. */
  lemma ClosingReport(id: string, history: seq<Turn>, persona: string, plan: Plan, text: string, a: TurnAnswers)
    ensures var e := Closing(id, history, persona, plan, text, a).1;
      && (SubmitReport(id) in e <==> IsMissionComplete(plan.targets))
      && (SubmitReport(id) in e ==> e[|e| - 1] == SubmitReport(id))
  {
    var (reply, generation) := Replies(history, persona, plan.instruction, text, a);
    var body := [SetPlan(id, plan.targets, plan.focus)] + generation + [PushHistory(id, Turn(text, reply))];
    forall i | 0 <= i < |body| ensures !body[i].SubmitReport? {
      if 0 < i <= |generation| {
        assert body[i] == generation[i - 1];
      }
    }
    assert SubmitReport(id) !in body;
  }

  /** The history entry of the closing calls comes after every reply generated. */
  lemma ClosingOrder(id: string, history: seq<Turn>, persona: string, plan: Plan, text: string, a: TurnAnswers)
    ensures var (reply, e) := Closing(id, history, persona, plan, text, a);
      var h := |e| - 1 - (if IsMissionComplete(plan.targets) then 1 else 0);
      && 0 < h < |e| && e[h] == PushHistory(id, Turn(text, reply))
      && forall j :: 0 <= j < |e| && e[j].Generate? ==> 0 < j < h
  {
    var (reply, generation) := Replies(history, persona, plan.instruction, text, a);
    var report := if IsMissionComplete(plan.targets) then [SubmitReport(id)] else [];
    var e := [SetPlan(id, plan.targets, plan.focus)] + generation + [PushHistory(id, Turn(text, reply))] + report;
    assert (reply, e) == Closing(id, history, persona, plan, text, a);
    var h := 1 + |generation|;
    assert e[h] == PushHistory(id, Turn(text, reply));
    forall j | h < j < |e| ensures !e[j].Generate? {
      assert e[j] == report[j - h - 1];
    }
  }

  /** The steps after the confirmation keep the flag and the persona, and never classify. */
  lemma AfterConfirmationKeeps(doc: SessionDoc, text: string, a: TurnAnswers, background: bool)
    ensures var o := AfterConfirmation(doc, text, a, background);
      && o.doc.scamConfirmed == doc.scamConfirmed && o.doc.persona == doc.persona
      && forall i :: 0 <= i < |o.events| ==> !o.events[i].Classify?
  {
    var f := FindingsStep(doc, text, a.intel, background);
    match PlanTurn(doc.targets, doc.focus, LocalAfter(LocalOf(doc.data), a.intel), a.focusChoice)
    case Err(e) =>
    case Ok(plan) =>
      AfterConfirmationOk(doc, text, a, background, plan);
      ClosingStartsWithPlan(doc.id, doc.history, doc.persona, plan, text, a);
      NoClassifyConcat(f.events, Closing(doc.id, doc.history, doc.persona, plan, text, a).1);
  }

  lemma NoClassifyConcat(b: seq<Event>, c: seq<Event>)
    requires forall i :: 0 <= i < |b| ==> !b[i].Classify?
    requires forall i :: 0 <= i < |c| ==> !c[i].Classify?
    ensures forall i :: 0 <= i < |b + c| ==> !(b + c)[i].Classify?
  {
    forall i | |b| <= i < |b + c| ensures (b + c)[i] == c[i - |b|] {
    }
  }

  /** `scam_confirmed` only moves from false to true; the persona changes only on the
      turn that confirms the scam, to the style picked then; a confirmed session is never
      classified again. */
  lemma ConfirmationIsMonotone(doc: SessionDoc, text: string, a: TurnAnswers, persona: string, background: bool)
    ensures var o := TurnOutcome(doc, text, a, persona, background);
      && (o.doc.scamConfirmed <==> doc.scamConfirmed || ClassifyScam(a.classification))
      && (doc.scamConfirmed ==> o.doc.persona == doc.persona && forall i :: 0 <= i < |o.events| ==> !o.events[i].Classify?)
      && (o.doc.persona != doc.persona ==> !doc.scamConfirmed && o.doc.scamConfirmed && o.doc.persona == persona)
  {
    if doc.scamConfirmed {
      AlreadyConfirmedOutcome(doc, text, a, persona, background);
      AfterConfirmationKeeps(doc, text, a, background);
    } else if ClassifyScam(a.classification) {
      ConfirmedOutcome(doc, text, a, persona, background);
      AfterConfirmationKeeps(ConfirmStep(doc, text, persona).doc, text, a, background);
    } else {
      ChatOutcome(doc, text, a, persona, background);
    }
  }

  /** Once confirmed, the classifier's answer and the persona pick play no part. */
  lemma ConfirmedTurnIgnoresClassifier(doc: SessionDoc, text: string, a: TurnAnswers, verdict: Option<string>,
                                       persona: string, persona': string, background: bool)
    requires doc.scamConfirmed
    ensures TurnOutcome(doc, text, a, persona, background) == TurnOutcome(doc, text, a.(classification := verdict), persona', background)
  {
    assert AfterConfirmation(doc, text, a, background) == AfterConfirmation(doc, text, a.(classification := verdict), background);
  }

  /** On the confirmed path a reply is generated once, and once more only when the safety
      check fails; the reply kept is the last one generated, and it is the one recorded in
      the history, which grows by exactly that entry. A planning error ends the turn
      before any reply, with the history unchanged. */
  lemma AtMostOneRegeneration(doc: SessionDoc, text: string, a: TurnAnswers, persona: string, background: bool)
    requires doc.scamConfirmed || ClassifyScam(a.classification)
    ensures var o := TurnOutcome(doc, text, a, persona, background);
      && (o.reply.Ok? ==>
            && Generations(o.events) == (if SafetyCheck(a.safetyVerdict) then 1 else 2)
            && o.reply.value == (if SafetyCheck(a.safetyVerdict) then ReplyOf(a.firstCompletion) else ReplyOf(a.secondCompletion))
            && o.doc.history == doc.history + [Turn(text, o.reply.value)])
      && (o.reply.Err? ==> Generations(o.events) == 0 && o.doc.history == doc.history)
  {
    var c := ConfirmStep(doc, text, persona);
    var f := FindingsStep(c.doc, text, a.intel, background);
    QuietHasNoGenerations(c.events);
    QuietHasNoGenerations(f.events);
    match PlanTurn(c.doc.targets, c.doc.focus, LocalAfter(LocalOf(c.doc.data), a.intel), a.focusChoice)
    case Err(e) =>
      GenerationsConcat(c.events, f.events);
    case Ok(plan) =>
      var closing := Closing(c.doc.id, c.doc.history, c.doc.persona, plan, text, a).1;
      ClosingGenerations(c.doc.id, c.doc.history, c.doc.persona, plan, text, a);
      GenerationsConcat(f.events, closing);
      GenerationsConcat(c.events, f.events + closing);
  }

  /** After the confirmation, the report is submitted iff planning succeeds and the plan's
      targets are complete, and then it is the last call. */
  lemma AfterConfirmationReport(doc: SessionDoc, text: string, a: TurnAnswers, background: bool)
    ensures var o := AfterConfirmation(doc, text, a, background);
      && (SubmitReport(doc.id) in o.events <==> o.reply.Ok? && IsMissionComplete(o.doc.targets))
      && (SubmitReport(doc.id) in o.events ==> o.events[|o.events| - 1] == SubmitReport(doc.id))
  {
    var f := FindingsStep(doc, text, a.intel, background);
    assert SubmitReport(doc.id) !in f.events;
    match PlanTurn(doc.targets, doc.focus, LocalAfter(LocalOf(doc.data), a.intel), a.focusChoice)
    case Err(e) =>
    case Ok(plan) =>
      AfterConfirmationOk(doc, text, a, background, plan);
      var closing := Closing(doc.id, doc.history, doc.persona, plan, text, a).1;
      ClosingReport(doc.id, doc.history, doc.persona, plan, text, a);
      ClosingStartsWithPlan(doc.id, doc.history, doc.persona, plan, text, a);
      var o := f.events + closing;
      assert o[|o| - 1] == closing[|closing| - 1];
  }

  /** The report is submitted iff the turn reaches its end and every priority target is
      then terminal, and it is the last call of the turn. */
  lemma ReportIffMissionComplete(doc: SessionDoc, text: string, a: TurnAnswers, persona: string, background: bool)
    requires doc.scamConfirmed || ClassifyScam(a.classification)
    ensures var o := TurnOutcome(doc, text, a, persona, background);
      && (SubmitReport(doc.id) in o.events <==> o.reply.Ok? && IsMissionComplete(o.doc.targets))
      && (SubmitReport(doc.id) in o.events ==> o.events[|o.events| - 1] == SubmitReport(doc.id))
  {
    var c := ConfirmStep(doc, text, persona);
    ConfirmedOutcome(doc, text, a, persona, background);
    AfterConfirmationReport(c.doc, text, a, background);
    var rest := AfterConfirmation(c.doc, text, a, background).events;
    assert SubmitReport(doc.id) !in c.events;
    if SubmitReport(doc.id) in rest {
      var o := c.events + rest;
      assert o[|o| - 1] == rest[|rest| - 1];
    }
  }

  /** The call at `i` saves the plan, the call at `h` saves the history entry, and every
      reply generated lies strictly between them. */
  predicate Framed(e: seq<Event>, i: int, h: int) {
    && 0 <= i < h < |e| && e[i].SetPlan? && e[h].PushHistory?
    && forall j :: 0 <= j < |e| && e[j].Generate? ==> i < j < h
  }

  /** Calls that generate nothing in front keep the frame, shifted. */
  lemma FramedAfterQuiet(pre: seq<Event>, e: seq<Event>, i: int, h: int)
    requires Quiet(pre) && Framed(e, i, h)
    ensures Framed(pre + e, |pre| + i, |pre| + h)
  {
    var o := pre + e;
    forall j | |pre| <= j < |o| ensures o[j] == e[j - |pre|] {
    }
  }

  /** The closing calls of a planned turn, behind its findings, are framed by the plan and
      the history entry, and the extraction request comes first. */
  lemma AfterConfirmationFramed(doc: SessionDoc, text: string, a: TurnAnswers, background: bool, plan: Plan)
    requires PlanTurn(doc.targets, doc.focus, LocalAfter(LocalOf(doc.data), a.intel), a.focusChoice) == Ok(plan)
    ensures var f := FindingsStep(doc, text, a.intel, background);
      var h := |Closing(doc.id, doc.history, doc.persona, plan, text, a).1| - 1 - (if IsMissionComplete(plan.targets) then 1 else 0);
      && Framed(AfterConfirmation(doc, text, a, background).events, |f.events|, |f.events| + h)
      && AfterConfirmation(doc, text, a, background).events[0] == ExtractInformation(text)
  {
    var f := FindingsStep(doc, text, a.intel, background);
    AfterConfirmationOk(doc, text, a, background, plan);
    var closing := Closing(doc.id, doc.history, doc.persona, plan, text, a).1;
    ClosingFramed(doc.id, doc.history, doc.persona, plan, text, a);
    FramedAfterQuiet(f.events, closing, 0, |closing| - 1 - (if IsMissionComplete(plan.targets) then 1 else 0));
  }

  /** The closing calls alone are framed by their first call and the history entry. */
  lemma ClosingFramed(id: string, history: seq<Turn>, persona: string, plan: Plan, text: string, a: TurnAnswers)
    ensures var e := Closing(id, history, persona, plan, text, a).1;
      Framed(e, 0, |e| - 1 - (if IsMissionComplete(plan.targets) then 1 else 0))
  {
    ClosingStartsWithPlan(id, history, persona, plan, text, a);
    ClosingOrder(id, history, persona, plan, text, a);
  }

  /** The call at `x` requests the extraction, before the plan frame at `i` and `h`. */
  predicate ExtractedThenFramed(e: seq<Event>, text: string, x: int, i: int, h: int) {
    0 <= x < i && Framed(e, i, h) && e[x] == ExtractInformation(text)
  }

  /** The order of a turn on the confirmed path: the classification when the session was
      not yet confirmed, then the extraction request, then the plan saved before any reply
      is generated, and the history entry after every generated reply. */
  lemma PlanSavedBeforeGeneration(doc: SessionDoc, text: string, a: TurnAnswers, persona: string, background: bool)
    requires doc.scamConfirmed || ClassifyScam(a.classification)
    requires TurnOutcome(doc, text, a, persona, background).reply.Ok?
    ensures exists x, i, h :: ExtractedThenFramed(TurnOutcome(doc, text, a, persona, background).events, text, x, i, h)
    ensures !doc.scamConfirmed ==> TurnOutcome(doc, text, a, persona, background).events[0] == Classify(text)
  {
    var c := ConfirmStep(doc, text, persona);
    var plan := PlanTurn(c.doc.targets, c.doc.focus, LocalAfter(LocalOf(c.doc.data), a.intel), a.focusChoice).value;
    AfterConfirmationFramed(c.doc, text, a, background, plan);
    var f := FindingsStep(c.doc, text, a.intel, background);
    var h := |Closing(c.doc.id, c.doc.history, c.doc.persona, plan, text, a).1| - 1 - (if IsMissionComplete(plan.targets) then 1 else 0);
    var o := AfterConfirmation(c.doc, text, a, background).events;
    FramedAfterQuiet(c.events, o, |f.events|, |f.events| + h);
    ConfirmedOutcome(doc, text, a, persona, background);
    assert (c.events + o)[|c.events|] == o[0];
    assert ExtractedThenFramed(c.events + o, text, |c.events|, |c.events| + |f.events|, |c.events| + |f.events| + h);
  }



  /** On the confirmed path the stored findings and the local copy the planner reads agree:
      the same lists, read as sets, and the same records. */
  lemma StoreMatchesPlannerView(doc: SessionDoc, text: string, a: TurnAnswers, persona: string, background: bool)
    requires doc.scamConfirmed || ClassifyScam(a.classification)
    ensures Mirrors(TurnOutcome(doc, text, a, persona, background).doc.data, LocalAfter(LocalOf(doc.data), a.intel))
  {
    LocalOfMirrors(doc.data);
    UpdateKeepsMirror(doc.data, LocalOf(doc.data), a.intel);
  }

  /** The loop of lines 259-273: each standard list gains the new values, and each other
      key adds its records to the dynamic list. */
  method MergedData(prior: LocalData, c: Dict<seq<string>>) returns (data: LocalData)
    ensures data == MergeLocal(prior, c)
  {
    data := prior;
    var i := 0;
    while i < |c|
      invariant 0 <= i <= |c|
      invariant data == MergeLocal(prior, c[..i])
    {
      assert c[..i + 1][..i] == c[..i];
      var key := c[i].0;
      var newValues := c[i].1;
      if key in StandardKeys {
        var existing := GetSet(data.fields, key);
        data := data.(fields := data.fields[key := existing + AsSet(newValues)]);
      } else {
        var existing := AppendMissing(data.dynamic, Records(key, newValues));
        data := data.(dynamic := existing);
      }
      i := i + 1;
    }
    assert c[..i] == c;
  }

  /** Lines 270-272: each new record is appended unless the list already holds it. */
  method AppendMissing(existing: seq<DynRecord>, newObjs: seq<DynRecord>) returns (r: seq<DynRecord>)
    ensures r == AddEach(existing, newObjs)
  {
    r := existing;
    var j := 0;
    while j < |newObjs|
      invariant 0 <= j <= |newObjs|
      invariant r == AddEach(existing, newObjs[..j])
    {
      assert newObjs[..j + 1][..j] == newObjs[..j];
      if newObjs[j] !in r {
        r := r + [newObjs[j]];
      }
      j := j + 1;
    }
    assert newObjs[..j] == newObjs;
  }

  /** The local copy holds the document's fields, with the standard lists as sets. */
  predicate Holds(state: SessionState, doc: SessionDoc)
    reads state
  {
    && state.id == doc.id && state.scamConfirmed == doc.scamConfirmed && state.persona == doc.persona
    && state.focus == doc.focus && state.targets == doc.targets && state.history == doc.history
    && state.data == LocalOf(doc.data)
  }

  /** The `{key: [value]}` dictionary of the background extraction, as the loosely typed
      intel `_update_intelligence` takes: each key keeps its list, entry by entry. */
  function AsRaw(d: EntityDict): (r: Dict<RawValue>)
    ensures |r| == |d| && forall i :: 0 <= i < |d| ==> r[i].0 == d[i].0
    ensures forall i :: 0 <= i < |d| ==>
      && r[i].1.List? && |r[i].1.items| == |d[i].1|
      && forall j :: 0 <= j < |d[i].1| ==> r[i].1.items[j] == Some(d[i].1[j])
    ensures UniqueKeys(d) ==> UniqueKeys(r)
  {
    seq(|d|, i requires 0 <= i < |d| => (d[i].0, List(seq(|d[i].1|, j requires 0 <= j < |d[i].1| => Some(d[i].1[j])))))
  }

  /** The `active_sessions` collection and the agent methods that use it. */
  class AgentBrain {
    var sessions: map<string, SessionDoc>
    ghost var log: seq<Event>

    /** Every document is stored under its own id. */
    predicate Valid()
      reads this
    {
      forall k :: k in sessions ==> sessions[k].id == k
    }

    constructor ()
      ensures Valid() && sessions == map[] && log == []
    {
      sessions := map[];
      log := [];
    }

    /** `get_or_create_session`: the stored document for a known id, untouched; otherwise
        the new document, inserted. */
    method GetOrCreateSession(id: string) returns (state: SessionState)
      requires Valid()
      modifies this
      ensures Valid() && fresh(state) && Holds(state, Loaded(id, old(sessions)))
      ensures id in old(sessions) ==> sessions == old(sessions)
      ensures id !in old(sessions) ==> sessions == old(sessions)[id := NewSessionDoc(id)]
      ensures log == old(log) + LoadEvents(id, old(sessions))
    {
      log := log + [FindSession(id)];
      if id !in sessions {
        var doc := NewSessionDoc(id);
        sessions := sessions[id := doc];
        log := log + [InsertSession(id)];
      }
      state := new SessionState.FromDoc(sessions[id]);
    }

    /** `save_interaction`: `$push` of one history entry onto the stored document. */
    method SaveInteraction(id: string, userText: string, agentText: string)
      requires Valid()
      modifies this
      ensures Valid()
      ensures sessions == if id in old(sessions)
        then old(sessions)[id := old(sessions)[id].(history := old(sessions)[id].history + [Turn(userText, agentText)])]
        else old(sessions)
      ensures log == old(log) + [PushHistory(id, Turn(userText, agentText))]
    {
      if id in sessions {
        sessions := sessions[id := sessions[id].(history := sessions[id].history + [Turn(userText, agentText)])];
      }
      log := log + [PushHistory(id, Turn(userText, agentText))];
    }

    /** `generate_response`: the request is logged by its inputs, which fix the message
        list sent (`Messages(history, persona, objective, text)`, built by `BuildMessages`);
        `completion` is the model's answer to it. The reply is the trimmed completion, or
        the filler line when the call failed. */
    method GenerateResponse(history: seq<Turn>, persona: string, objective: string, text: string, completion: Option<string>)
      returns (reply: string)
      modifies this
      ensures sessions == old(sessions) && reply == ReplyOf(completion)
      ensures log == old(log) + [Generate(Request(history, persona, objective, text))]
    {
      log := log + [Generate(Request(history, persona, objective, text))];
      reply := ReplyOf(completion);
    }

    /** The local merge of lines 259-273, on the turn's copy of the session. */
    method MergeIntoState(state: SessionState, c: Dict<seq<string>>)
      modifies state
      ensures state.data == MergeLocal(old(state.data), c)
      ensures state.id == old(state.id) && state.scamConfirmed == old(state.scamConfirmed)
      ensures state.persona == old(state.persona) && state.focus == old(state.focus)
      ensures state.targets == old(state.targets) && state.history == old(state.history)
    {
      var merged := MergedData(state.data, c);
      state.data := merged;
    }

    /** `_update_intelligence`: one `$addToSet` write and the local merge, both skipped when
        nothing survives normalisation. */
    method UpdateIntelligence(state: SessionState, intel: Dict<RawValue>)
      requires Valid() && UniqueKeys(intel)
      modifies this, state
      ensures Valid()
      ensures state.data == LocalAfter(old(state.data), intel)
      ensures state.id == old(state.id) && state.scamConfirmed == old(state.scamConfirmed)
      ensures state.persona == old(state.persona) && state.focus == old(state.focus)
      ensures state.targets == old(state.targets) && state.history == old(state.history)
      ensures sessions == if old(state.id) in old(sessions)
          then old(sessions)[old(state.id) := old(sessions)[old(state.id)].(data := StoredAfter(old(sessions)[old(state.id)].data, intel))]
          else old(sessions)
      ensures log == old(log) + if HasNewData(Normalize(intel)) then [AddToSet(old(state.id), UpdatesOf(Normalize(intel)))] else []
    {
      var clean := NormalizeIntel(intel);
      var updates, hasNewData := BuildUpdates(clean);
      if hasNewData {
        if state.id in sessions {
          sessions := sessions[state.id := sessions[state.id].(data := ApplyUpdates(sessions[state.id].data, updates))];
        }
        log := log + [AddToSet(state.id, updates)];
        MergeIntoState(state, clean);
      } else if state.id in sessions {
        assert sessions[state.id].(data := StoredAfter(sessions[state.id].data, intel)) == sessions[state.id];
      }
    }

    /** Lines 142-160: the reply, its safety check and the one retry. */
    method ReplyWithRetry(history: seq<Turn>, persona: string, objective: string, text: string, a: TurnAnswers)
      returns (reply: string)
      modifies this
      ensures sessions == old(sessions)
      ensures reply == Replies(history, persona, objective, text, a).0
      ensures log == old(log) + Replies(history, persona, objective, text, a).1
    {
      reply := GenerateResponse(history, persona, objective, text, a.firstCompletion);
      log := log + [CheckSafety(reply)];
      if !SafetyCheck(a.safetyVerdict) {
        reply := GenerateResponse(history, persona, UnsafeWarning + objective, text, a.secondCompletion);
      }
    }

    /** Lines 133-171: save the plan, reply with the safety retry, save the history entry
        and report a complete mission. */
    method CloseTurn(id: string, history: seq<Turn>, persona: string, plan: Plan, text: string, a: TurnAnswers)
      returns (reply: string)
      requires Valid() && id in sessions
      modifies this
      ensures Valid()
      ensures reply == Closing(id, history, persona, plan, text, a).0
      ensures log == old(log) + Closing(id, history, persona, plan, text, a).1
      ensures sessions == old(sessions)[id := old(sessions)[id].(targets := plan.targets, focus := plan.focus,
                                                                 history := old(sessions)[id].history + [Turn(text, reply)])]
    {
      ghost var start := log;
      sessions := sessions[id := sessions[id].(targets := plan.targets, focus := plan.focus)];
      log := log + [SetPlan(id, plan.targets, plan.focus)];
      reply := ReplyWithRetry(history, persona, plan.instruction, text, a);
      ghost var g := Replies(history, persona, plan.instruction, text, a);
      assert log == start + [SetPlan(id, plan.targets, plan.focus)] + g.1;
      SaveInteraction(id, text, reply);
      assert log == start + [SetPlan(id, plan.targets, plan.focus)] + g.1 + [PushHistory(id, Turn(text, reply))];
      if IsMissionComplete(plan.targets) {
        log := log + [SubmitReport(id)];
      }
      Regroup(start, [SetPlan(id, plan.targets, plan.focus)], g.1, [PushHistory(id, Turn(text, reply))],
              if IsMissionComplete(plan.targets) then [SubmitReport(id)] else []);
    }

    /** Lines 114-125: the extraction request, the findings merged into the store and into
        the turn's copy, and the background job scheduled when there is one. */
    method RecordFindings(state: SessionState, text: string, intel: Dict<RawValue>, background: bool)
      requires Valid() && UniqueKeys(intel) && state.id in sessions
      modifies this, state
      ensures Valid()
      ensures var f := FindingsStep(old(sessions)[old(state.id)], text, intel, background);
        sessions == old(sessions)[old(state.id) := f.doc] && log == old(log) + f.events
      ensures state.data == LocalAfter(old(state.data), intel)
      ensures state.id == old(state.id) && state.scamConfirmed == old(state.scamConfirmed)
      ensures state.persona == old(state.persona) && state.focus == old(state.focus)
      ensures state.targets == old(state.targets) && state.history == old(state.history)
    {
      log := log + [ExtractInformation(text)];
      UpdateIntelligence(state, intel);
      if background {
        log := log + [ScheduleExtraction(state.id, text)];
      }
    }

    /** Lines 114-173 on a session whose scam is confirmed: the findings, the background
        job, the plan and, when planning succeeds, the closing calls. */
    method ContinueConfirmed(state: SessionState, text: string, a: TurnAnswers, background: bool)
      returns (r: Result<string, PlanError>)
      requires Valid() && UniqueKeys(a.intel) && state.id in sessions && Holds(state, sessions[state.id])
      modifies this, state
      ensures Valid()
      ensures var o := AfterConfirmation(old(sessions)[old(state.id)], text, a, background);
        r == o.reply && sessions == old(sessions)[old(state.id) := o.doc] && log == old(log) + o.events
      ensures state.id == old(state.id) && state.persona == old(state.persona)
    {
      ghost var doc := sessions[state.id];
      ghost var f := FindingsStep(doc, text, a.intel, background);
      RecordFindings(state, text, a.intel, background);
      var plan := UpdateAndGetFocus(state, a.focusChoice);
      if plan.Err? {
        return Err(plan.error);
      }
      var reply := CloseTurn(state.id, state.history, state.persona, plan.value, text, a);
      r := Ok(reply);
      RegroupTwo(old(log), f.events, Closing(doc.id, doc.history, doc.persona, plan.value, text, a).1);
      AfterConfirmationOk(doc, text, a, background, plan.value);
    }

    /** Lines 85-94 on a session not yet confirmed: the classification, and, when the
        message is flagged, the confirmation with a persona picked for the session. */
    method ConfirmIfScam(state: SessionState, text: string, classification: Option<string>) returns (isScam: bool)
      requires Valid() && state.id in sessions && Holds(state, sessions[state.id]) && !state.scamConfirmed
      modifies this, state
      ensures Valid() && isScam == ClassifyScam(classification)
      ensures !isScam ==> sessions == old(sessions) && log == old(log) + [Classify(text)]
      ensures isScam ==>
        && state.persona in Personas
        && var c := ConfirmStep(old(sessions)[old(state.id)], text, state.persona);
           sessions == old(sessions)[old(state.id) := c.doc] && log == old(log) + c.events
      ensures state.scamConfirmed == isScam && (!isScam ==> state.persona == old(state.persona))
      ensures state.id == old(state.id) && state.focus == old(state.focus)
      ensures state.targets == old(state.targets) && state.data == old(state.data) && state.history == old(state.history)
    {
      log := log + [Classify(text)];
      isScam := ClassifyScam(classification);
      if isScam {
        state.scamConfirmed := true;
        var picked := GeneratePersona();
        state.persona := picked;
        sessions := sessions[state.id := sessions[state.id].(scamConfirmed := true, persona := picked)];
        log := log + [SetConfirmed(state.id, picked)];
      }
    }

    /** Lines 95-106: the reply with an empty objective, saved to the history. */
    method Chat(state: SessionState, text: string, a: TurnAnswers) returns (reply: string)
      requires Valid() && state.id in sessions
      modifies this
      ensures Valid() && reply == ReplyOf(a.firstCompletion)
      ensures sessions == old(sessions)[state.id := old(sessions)[state.id].(history := old(sessions)[state.id].history + [Turn(text, reply)])]
      ensures log == old(log) + [Generate(Request(state.history, state.persona, "", text)), PushHistory(state.id, Turn(text, reply))]
    {
      reply := GenerateResponse(state.history, state.persona, "", text, a.firstCompletion);
      SaveInteraction(state.id, text, reply);
    }

    /** Lines 85-173 on the loaded copy `state` of a session not yet confirmed: the turn
        of `TurnOutcome`, with the persona the copy ends with. */
    method UnconfirmedTurn(state: SessionState, text: string, a: TurnAnswers, background: bool) returns (r: Result<string, PlanError>)
      requires Valid() && UniqueKeys(a.intel) && state.id in sessions && Holds(state, sessions[state.id]) && !state.scamConfirmed
      modifies this, state
      ensures Valid()
      ensures var o := TurnOutcome(old(sessions)[old(state.id)], text, a, state.persona, background);
        && r == o.reply
        && sessions == old(sessions)[old(state.id) := o.doc]
        && log == old(log) + o.events
      ensures sessions[old(state.id)].persona == state.persona
      ensures ClassifyScam(a.classification) ==> state.persona in Personas
    {
      var id := state.id;
      var isScam := ConfirmIfScam(state, text, a.classification);
      if !isScam {
        var reply := Chat(state, text, a);
        RegroupTwo(old(log), [Classify(text)], [Generate(Request(state.history, state.persona, "", text)), PushHistory(state.id, Turn(text, reply))]);
        ChatOutcome(old(sessions)[id], text, a, state.persona, background);
        return Ok(reply);
      }
      r := ContinueConfirmed(state, text, a, background);
      OverwriteStored(old(sessions), id, ConfirmStep(old(sessions)[id], text, state.persona).doc, sessions[id]);
      RegroupTwo(old(log), ConfirmStep(old(sessions)[id], text, state.persona).events,
                 AfterConfirmation(ConfirmStep(old(sessions)[id], text, state.persona).doc, text, a, background).events);
      ConfirmedOutcome(old(sessions)[id], text, a, state.persona, background);
    }

    /** Lines 114-173 on the loaded copy `state` of a session confirmed earlier. */
    method ConfirmedTurnOn(state: SessionState, text: string, a: TurnAnswers, background: bool) returns (r: Result<string, PlanError>)
      requires Valid() && UniqueKeys(a.intel) && state.id in sessions && Holds(state, sessions[state.id]) && state.scamConfirmed
      modifies this, state
      ensures Valid()
      ensures var o := TurnOutcome(old(sessions)[old(state.id)], text, a, state.persona, background);
        && r == o.reply
        && sessions == old(sessions)[old(state.id) := o.doc]
        && log == old(log) + o.events
      ensures sessions[old(state.id)].persona == state.persona
    {
      var id := state.id;
      r := ContinueConfirmed(state, text, a, background);
      AlreadyConfirmedOutcome(old(sessions)[id], text, a, state.persona, background);
    }

    /** `process_turn`: the reply, the calls made and the stored document are those of
        `TurnOutcome` on the loaded document, with the persona picked when the scam is
        confirmed. */
    method ProcessTurn(id: string, text: string, a: TurnAnswers, background: bool) returns (r: Result<string, PlanError>)
      requires Valid() && UniqueKeys(a.intel)
      modifies this
      ensures Valid() && id in sessions
      ensures var o := TurnOutcome(Loaded(id, old(sessions)), text, a, sessions[id].persona, background);
        && r == o.reply
        && sessions == old(sessions)[id := o.doc]
        && log == old(log) + LoadEvents(id, old(sessions)) + o.events
      ensures !Loaded(id, old(sessions)).scamConfirmed && ClassifyScam(a.classification) ==> sessions[id].persona in Personas
    {
      var state := GetOrCreateSession(id);
      if state.scamConfirmed {
        r := ConfirmedTurnOn(state, text, a, background);
      } else {
        r := UnconfirmedTurn(state, text, a, background);
      }
      if id !in old(sessions) {
        OverwriteStored(old(sessions), id, NewSessionDoc(id), sessions[id]);
      }
    }

    /** Lines 189-195: load the session afresh and merge the findings into it. */
    method LoadAndUpdate(id: string, intel: Dict<RawValue>)
      requires Valid() && UniqueKeys(intel)
      modifies this
      ensures Valid()
      ensures var doc := Loaded(id, old(sessions));
        && sessions == old(sessions)[id := doc.(data := StoredAfter(doc.data, intel))]
        && log == old(log) + LoadEvents(id, old(sessions))
             + (if HasNewData(Normalize(intel)) then [AddToSet(id, UpdatesOf(Normalize(intel)))] else [])
    {
      ghost var doc := Loaded(id, old(sessions));
      var state := GetOrCreateSession(id);
      assert sessions == old(sessions)[id := doc] && state.id == id;
      UpdateIntelligence(state, intel);
      OverwriteStored(old(sessions), id, doc, sessions[id]);
    }

    /** `run_background_extraction`: the completion's entities are merged into a freshly
        loaded session, when there are any. */
    method RunBackgroundExtraction(id: string, text: string, completion: Option<string>)
      requires Valid()
      modifies this
      ensures Valid()
      ensures var extra := UnknownEntities(completion);
        if extra == [] then sessions == old(sessions) && log == old(log) + [ExtractEntities(text)]
        else
          var doc := Loaded(id, old(sessions));
          var intel := AsRaw(extra);
          && sessions == old(sessions)[id := doc.(data := StoredAfter(doc.data, intel))]
          && log == old(log) + [ExtractEntities(text)] + LoadEvents(id, old(sessions))
               + (if HasNewData(Normalize(intel)) then [AddToSet(id, UpdatesOf(Normalize(intel)))] else [])
    {
      log := log + [ExtractEntities(text)];
      var extra := ExtractUnknownEntities(completion);
      if extra != [] {
        LoadAndUpdate(id, AsRaw(extra));
      }
    }
  }
}
