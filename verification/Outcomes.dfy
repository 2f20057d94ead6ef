/** What a handle answers, told by what became of its call. */
module Outcomes {
  import opened Sending
  import opened Outboxes

  /** The call numbered `id` waits in the buffer. */
  ghost predicate IsBuffered(o: Outbox, id: nat) {
    exists k :: 0 <= k < |o.pending| && o.pending[k].id == id
  }

  /** The result, if any, that a step means for call `id`. */
  ghost function OutcomeIn(o: Outbox, step: OutStep, id: nat): seq<SendingResult> {
    match step
    case Refuse(_, why) => if id == |o.sent| then [why] else []
    case Ends(p, _, Returned(error)) => if p.id == id then [FromResult(error)] else []
    case Ends(p, _, Panicked) => if p.id == id then [SendingResult.Error] else []
    case Abandon(Quits) => if IsBuffered(o, id) then [WeClosed] else []
    case Abandon(_) => if IsBuffered(o, id) then [SendingResult.Error] else []
    case _ => []
  }

  /** All results that a run means for call `id`, in order. */
  ghost function OutcomesOf(o: Outbox, steps: seq<OutStep>, id: nat): seq<SendingResult>
    requires Valid(o, steps)
    decreases |steps|
  {
    if steps == [] then [] else OutcomeIn(o, steps[0], id) + OutcomesOf(Apply(o, steps[0]), steps[1..], id)
  }

  /** What a channel says of the outcomes of its call. */
  predicate Reflects(cell: Oneshot, outcomes: seq<SendingResult>) {
    match cell
    case Waiting => outcomes == []
    case Holding(r) => outcomes == [r]
    case SenderGone => outcomes == [SendingResult.Error]
    case Taken(r) => outcomes == [r]
  }

  ghost predicate Tells(o: Outbox, id: nat, outcomes: seq<SendingResult>) {
    if id < |o.results| then Reflects(o.results[id], outcomes) else outcomes == []
  }

  lemma EndTells(o: Outbox, step: OutStep, id: nat, before: seq<SendingResult>)
    requires Numbered(o) && OneSenderEach(o) && Enabled(o, step) && step.Ends? && Tells(o, id, before)
    ensures Tells(Apply(o, step), id, before + OutcomeIn(o, step, id))
  {
    TaskParcelIsAwaited(o, step.p, step.stage);
    assert before + [] == before;
  }

  lemma AbandonTells(o: Outbox, parting: Parting, id: nat, before: seq<SendingResult>)
    requires Numbered(o) && OneSenderEach(o) && Enabled(o, Abandon(parting)) && Tells(o, id, before)
    ensures Tells(Apply(o, Abandon(parting)), id, before + OutcomeIn(o, Abandon(parting), id))
  {
    assert before + [] == before;
    if id < |o.results| {
      SettleAllAt(o.results, o.pending, LeftWhen(parting), id);
    }
    if k: nat :| k < |o.pending| && o.pending[k].id == id {
      PendingIsSent(o, k);
    }
  }

  lemma StepTells(o: Outbox, step: OutStep, id: nat, before: seq<SendingResult>)
    requires Inv(o) && Enabled(o, step) && Tells(o, id, before)
    ensures Tells(Apply(o, step), id, before + OutcomeIn(o, step, id))
  {
    if step.Ends? {
      EndTells(o, step, id, before);
    } else if step.Abandon? {
      AbandonTells(o, step.parting, id, before);
    } else {
      assert before + [] == before;
    }
  }

  lemma {:induction false} RunTells(o: Outbox, steps: seq<OutStep>, id: nat, before: seq<SendingResult>)
    requires Inv(o) && Valid(o, steps) && Tells(o, id, before)
    ensures Tells(After(o, steps), id, before + OutcomesOf(o, steps, id))
    decreases |steps|
  {
    if steps == [] {
      assert before + [] == before;
    } else {
      var now, rest := OutcomeIn(o, steps[0], id), OutcomesOf(Apply(o, steps[0]), steps[1..], id);
      StepTells(o, steps[0], id, before);
      StepKeepsInv(o, steps[0]);
      RunTells(Apply(o, steps[0]), steps[1..], id, before + now);
      assert before + (now + rest) == before + now + rest;
    }
  }

  /** What asking a handle does once the outcomes of its call are `outcomes`. */
  ghost predicate Answered(o: Outbox, id: nat, outcomes: seq<SendingResult>, o': Outbox) {
    && id < |o.results|
    && (outcomes == [] ==> o' == o.(answers := o.answers + [Answer(id, StillBeingSent)]))
    && (outcomes != [] ==>
          o' == o.(results := o.results[id := Taken(outcomes[0])],
                   answers := o.answers + [Answer(id, Result(outcomes[0]))]))
  }

  /**
   In every run a call has at most one outcome: the refusal, what its task returned or `Error` if the
   task panicked, or `WeClosed` or `Error` if the buffer it was in was given up. Asking its handle
   answers `StillBeingSent` and changes nothing as long as it has none, and answers it, once, after.
   */
  lemma AskTellsTheOutcome(steps: seq<OutStep>, id: nat)
    requires Valid(EMPTY_OUTBOX, steps) && Enabled(After(EMPTY_OUTBOX, steps), Ask(id))
    ensures var (o, outcomes) := (After(EMPTY_OUTBOX, steps), OutcomesOf(EMPTY_OUTBOX, steps, id));
            |outcomes| <= 1 && Answered(o, id, outcomes, Apply(o, Ask(id)))
  {
    RunTells(EMPTY_OUTBOX, steps, id, []);
    assert [] + OutcomesOf(EMPTY_OUTBOX, steps, id) == OutcomesOf(EMPTY_OUTBOX, steps, id);
    AskReflects(After(EMPTY_OUTBOX, steps), id, OutcomesOf(EMPTY_OUTBOX, steps, id));
  }

  /** Asking, case by case: what the channel holds is the answer, and a result is gone with it. */
  lemma AskReflects(o: Outbox, id: nat, outcomes: seq<SendingResult>)
    requires Enabled(o, Ask(id)) && Reflects(o.results[id], outcomes)
    ensures Answered(o, id, outcomes, Apply(o, Ask(id)))
  {
    assert o.results[id := o.results[id]] == o.results;
  }
}
