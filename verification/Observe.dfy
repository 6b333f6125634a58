/** Draining a session's inbound queue, once or until a condition holds or the deadline passes. */
module Observe {
  import opened Messages
  import opened InboundQueues
  import opened InstanceMaps
  import opened TagParse
  import opened Clocks
  import Broker

  /** The events a drain reports: what was popped and is visible under the mask read first. */
  function Shown(mask: seq<string>, popped: seq<SimToServer>): (r: seq<SimToServer>)
    ensures forall m :: m in r ==> m in popped && Visible(mask, m)
  {
    if popped == [] then []
    else
      var last := |popped| - 1;
      Shown(mask, popped[..last]) + if Visible(mask, popped[last]) then [popped[last]] else []
  }

  function WithInbound(instances: map<string, Broker.Instance>, id: string, items: seq<SimToServer>): map<string,
      Broker.Instance>
    requires id in instances
  {
    instances[id := instances[id].(inbound := items)]
  }

  /** Pops until nothing is left. */
  method DrainShown(queue: InboundQueue, mask: seq<string>) returns (shown: seq<SimToServer>)
    requires queue.Valid()
    modifies queue`items
    ensures queue.items == [] && shown == Shown(mask, old(queue.items))
  {
    ghost var items := queue.items;
    ghost var popped := 0;
    shown := [];
    while true
      invariant popped <= |items| && queue.items == items[popped..] && queue.Valid()
      invariant shown == Shown(mask, items[..popped])
      decreases |queue.items|
    {
      var msg := queue.TryRecv();
      if msg.None? {
        break;
      }
      assert items[..popped + 1][..popped] == items[..popped] && msg.value == items[popped];
      if Visible(mask, msg.value) {
        shown := shown + [msg.value];
      }
      popped := popped + 1;
    }
    assert items[..popped] == items;
  }

  /** Empties the queue; reports nothing when the instance is not connected. */
  method DrainObserve(instances: InstanceMap, id: string) returns (events: Option<seq<SimToServer>>)
    requires instances.Valid()
    modifies instances.Queues()
    ensures instances.Valid()
    ensures id !in old(instances.State()).inner ==> events.None? && instances.State() == old(instances.State())
    ensures id in old(instances.State()).inner ==>
              var sh := old(instances.State());
              && events == Some(Shown(sh.inner[id].readMask, sh.inner[id].inbound))
              && instances.State() == sh.(inner := WithInbound(sh.inner, id, []))
  {
    if id !in instances.inner {
      return None;
    }
    ghost var before := instances.Instances();
    var queue := instances.inner[id].inbound;
    var shown := DrainShown(queue, instances.inner[id].readMask);
    assert forall k :: k in instances.inner && k != id ==> instances.inner[k].inbound != queue;
    assert instances.Instances() == WithInbound(before, id, []);
    events := Some(shown);
  }

  // Until-conditions

  datatype HeartbeatUi = HeartbeatUi(generation: Option<nat>, activity: string, readerPage: int)

  function UiOf(heartbeat: Option<Heartbeat>): HeartbeatUi {
    match heartbeat
    case None => HeartbeatUi(None, "", 0)
    case Some(hb) => HeartbeatUi(Some(hb.generation), hb.activity, hb.readerPage)
  }

  datatype Until = Until(log: Option<string>, generationGt: Option<nat>, activity: Option<string>,
      progressPage: Option<int>)

  function LogText(event: SimToServer): string {
    match event.payload
    case Log(_, text) => text
    case _ => ""
  }

  predicate Contains(text: string, needle: string) {
    Find(text, needle, 0).Some?
  }

  predicate Mentions(events: seq<SimToServer>, needle: string) {
    exists i :: 0 <= i < |events| && Contains(LogText(events[i]), needle)
  }

  predicate SavedPage(events: seq<SimToServer>, page: int) {
    exists i :: 0 <= i < |events| && Contains(LogText(events[i]), SAVED_TAG)
      && TaggedI32(LogText(events[i]), PAGE_TAG) == Some(page)
  }

  predicate HasCondition(until: Until) {
    until.log.Some? || until.generationGt.Some? || until.activity.Some? || until.progressPage.Some?
  }

  /** Any one of the conditions that are set is enough; with none set there is nothing to wait for. */
  predicate UntilMatched(until: Until, events: seq<SimToServer>, ui: HeartbeatUi) {
    || !HasCondition(until)
    || (until.log.Some? && Mentions(events, until.log.value))
    || (until.generationGt.Some? && ui.generation.Some? && ui.generation.value > until.generationGt.value)
    || (until.activity.Some? &&
        (ui.activity == until.activity.value || Mentions(events, "Entering activity: " + until.activity.value)))
    || (until.progressPage.Some? &&
        (ui.readerPage == until.progressPage.value || SavedPage(events, until.progressPage.value)))
  }

  const SAVED_TAG := "Progress saved:"

  /** What was matched stays matched as events accumulate. */
  lemma MatchesPersist(until: Until, events: seq<SimToServer>, more: seq<SimToServer>, ui: HeartbeatUi)
    requires UntilMatched(until, events, ui)
    ensures UntilMatched(until, events + more, ui)
  {
    var all := events + more;
    assert forall i :: 0 <= i < |events| ==> all[i] == events[i];
  }

  lemma OccurrenceIsFound(text: string, needle: string, i: nat)
    requires OccursAt(text, needle, i)
    ensures Contains(text, needle)
  {
  }

  /**
   A progress line is recognised whatever it says before and after the page, as long as "page=" comes first with
   the page itself and no numeral follows it directly.
   */
  lemma SavedLineMatches(until: Until, events: seq<SimToServer>, ui: HeartbeatUi, i: nat, before: string, page: int,
      after: string)
    requires until.progressPage == Some(page) && IsI32(page)
    requires i < |events| && LogText(events[i]) == before + PAGE_TAG + (Decimal(page) + after)
    requires (exists k: nat :: OccursAt(before, SAVED_TAG, k)) && forall k :: !OccursAt(before, PAGE_TAG, k)
    requires after == "" || !IsNumeral(after[0])
    ensures UntilMatched(until, events, ui)
  {
    var text := LogText(events[i]);
    var k: nat :| OccursAt(before, SAVED_TAG, k);
    assert text[k..k + |SAVED_TAG|] == before[k..k + |SAVED_TAG|];
    OccurrenceIsFound(text, SAVED_TAG, k);
    PageTagIsGood();
    TaggedRoundTrip(before, PAGE_TAG, page, after);
    assert SavedPage(events, page);
  }

  function NonEmpty(text: Option<string>): Option<string> {
    if text == Some("") then None else text
  }

  /** Empty texts count as absent, and a generation of zero means the one shown now. */
  function Effective(until: Until, now: Option<Heartbeat>): Until {
    Until(NonEmpty(until.log),
          if until.generationGt != Some(0) then until.generationGt
          else Some(if now.Some? then now.value.generation else 0),
          NonEmpty(until.activity),
          until.progressPage)
  }

  // What the conditions mean, said in log texts and heartbeat fields

  predicate SaysAt(text: string, needle: string, k: nat) {
    k + |needle| <= |text| && text[k..k + |needle|] == needle
  }

  predicate LineSays(event: SimToServer, needle: string) {
    event.payload.Log? && exists k: nat :: k <= |event.payload.text| && SaysAt(event.payload.text, needle, k)
  }

  predicate SomeLineSays(events: seq<SimToServer>, needle: string) {
    exists i :: 0 <= i < |events| && LineSays(events[i], needle)
  }

  predicate SomeLineSaves(events: seq<SimToServer>, page: int) {
    exists i :: 0 <= i < |events| && LineSays(events[i], "Progress saved:")
      && TaggedI32(events[i].payload.text, "page=") == Some(page)
  }

  predicate SetsLog(until: Until) {
    until.log.Some? && |until.log.value| > 0
  }

  predicate SetsActivity(until: Until) {
    until.activity.Some? && |until.activity.value| > 0
  }

  /** Empty texts set no condition. */
  predicate SetsCondition(until: Until) {
    SetsLog(until) || until.generationGt.Some? || SetsActivity(until) || until.progressPage.Some?
  }

  /** Zero stands for the generation shown at first, which is zero without a heartbeat. */
  function Floor(asked: nat, first: Option<Heartbeat>): nat {
    if asked > 0 then asked else if first.Some? then first.value.generation else 0
  }

  predicate GenerationMet(until: Until, first: Option<Heartbeat>, shown: Option<Heartbeat>) {
    until.generationGt.Some? && shown.Some? && shown.value.generation > Floor(until.generationGt.value, first)
  }

  predicate ActivityMet(until: Until, events: seq<SimToServer>, shown: Option<Heartbeat>) {
    SetsActivity(until) &&
    ((shown.Some? && shown.value.activity == until.activity.value) ||
     SomeLineSays(events, "Entering activity: " + until.activity.value))
  }

  predicate PageMet(until: Until, events: seq<SimToServer>, shown: Option<Heartbeat>) {
    until.progressPage.Some? &&
    ((if shown.Some? then shown.value.readerPage else 0) == until.progressPage.value ||
     SomeLineSaves(events, until.progressPage.value))
  }

  /** One of the conditions that are set is met by these events and the heartbeat shown now. */
  predicate Met(until: Until, first: Option<Heartbeat>, events: seq<SimToServer>, shown: Option<Heartbeat>) {
    || (SetsLog(until) && SomeLineSays(events, until.log.value))
    || GenerationMet(until, first, shown)
    || ActivityMet(until, events, shown)
    || PageMet(until, events, shown)
  }

  lemma ContainsIsSaying(event: SimToServer, needle: string)
    requires |needle| > 0
    ensures Contains(LogText(event), needle) <==> LineSays(event, needle)
  {
    var text := LogText(event);
    if LineSays(event, needle) {
      assert text == event.payload.text;
      var k: nat :| k <= |text| && SaysAt(text, needle, k);
      assert OccursAt(text, needle, k);
    }
    if Contains(text, needle) {
      assert SaysAt(text, needle, Find(text, needle, 0).value);
    }
  }

  lemma MentionsIsSaying(events: seq<SimToServer>, needle: string)
    requires |needle| > 0
    ensures Mentions(events, needle) <==> SomeLineSays(events, needle)
  {
    forall i | 0 <= i < |events|
      ensures Contains(LogText(events[i]), needle) <==> LineSays(events[i], needle)
    {
      ContainsIsSaying(events[i], needle);
    }
  }

  lemma SavedIsSaying(events: seq<SimToServer>, page: int)
    ensures SavedPage(events, page) <==> SomeLineSaves(events, page)
  {
    forall i | 0 <= i < |events|
      ensures Contains(LogText(events[i]), SAVED_TAG) <==> LineSays(events[i], "Progress saved:")
      ensures LineSays(events[i], "Progress saved:") ==> LogText(events[i]) == events[i].payload.text
    {
      ContainsIsSaying(events[i], SAVED_TAG);
    }
  }

  /** The test of the loop is whether a condition that is set is met, or none is set. */
  lemma MatchedIffMet(until: Until, first: Option<Heartbeat>, events: seq<SimToServer>, shown: Option<Heartbeat>)
    ensures HasCondition(Effective(until, first)) <==> SetsCondition(until)
    ensures UntilMatched(Effective(until, first), events, UiOf(shown)) <==>
              !SetsCondition(until) || Met(until, first, events, shown)
  {
    if SetsLog(until) {
      MentionsIsSaying(events, until.log.value);
    }
    if SetsActivity(until) {
      MentionsIsSaying(events, "Entering activity: " + until.activity.value);
    }
    if until.progressPage.Some? {
      SavedIsSaying(events, until.progressPage.value);
    }
  }

  // The wait loop

  const POLL_MS: nat := 25

  datatype Drain = Drain(mask: seq<string>, popped: seq<SimToServer>)

  /** What turn `i` meets: its drain, unless the instance is gone, then the heartbeat and the clock it reads. */
  datatype Turn = Turn(drain: Option<Drain>, heartbeat: Option<Heartbeat>, now: nat)

  function Times(turns: nat -> Turn): nat -> nat {
    i => turns(i).now
  }

  /** The first `n` turns. */
  function Upto(turns: nat -> Turn, n: nat): (r: seq<Turn>)
    ensures |r| == n && forall i :: 0 <= i < n ==> r[i] == turns(i)
  {
    seq(n, i requires 0 <= i => turns(i))
  }

  lemma UptoNext(turns: nat -> Turn, n: nat)
    ensures Upto(turns, n + 1) == Upto(turns, n) + [turns(n)]
  {
  }

  /** Everything shown by the drains of these turns, in order. */
  function Accumulated(turns: seq<Turn>): seq<SimToServer> {
    if turns == [] then []
    else
      var last := |turns| - 1;
      var drain := turns[last].drain;
      Accumulated(turns[..last]) + if drain.None? then [] else Shown(drain.value.mask, drain.value.popped)
  }

  predicate MatchedAt(until: Until, turns: seq<Turn>)
    requires turns != []
  {
    UntilMatched(until, Accumulated(turns), UiOf(turns[|turns| - 1].heartbeat))
  }

  /** The loop ends at the last of these turns: a condition holds, or the deadline has passed. */
  predicate EndsAt(until: Until, turns: seq<Turn>, deadline: nat)
    requires turns != []
  {
    (HasCondition(until) && MatchedAt(until, turns)) || turns[|turns| - 1].now >= deadline
  }

  datatype Observation =
    | Gone
    | Observed(events: seq<SimToServer>, verdict: Option<Verdict>)

  datatype Verdict = Verdict(matched: bool, timedOut: bool)

  /** These turns neither lose the instance nor end the loop. */
  ghost predicate GoesOn(until: Until, turns: seq<Turn>, deadline: nat) {
    forall i :: 0 <= i < |turns| ==> turns[i].drain.Some? && !EndsAt(until, turns[..i + 1], deadline)
  }

  /** A verdict is given only for a condition, and it is either a match or a timeout. */
  predicate Truthful(verdict: Option<Verdict>, until: Until, turns: seq<Turn>, deadline: nat)
    requires turns != []
  {
    if !HasCondition(until) then verdict.None?
    else verdict == Some(Verdict(MatchedAt(until, turns), !MatchedAt(until, turns)))
         && (MatchedAt(until, turns) || turns[|turns| - 1].now >= deadline)
  }

  /** What a wait that has taken these turns must report. */
  ghost predicate Reports(result: Observation, until: Until, turns: seq<Turn>, deadline: nat)
    requires turns != []
  {
    var last := |turns| - 1;
    && GoesOn(until, turns[..last], deadline)
    && (result.Gone? <==> turns[last].drain.None?)
    && (result.Observed? ==>
          && result.events == Accumulated(turns)
          && EndsAt(until, turns, deadline)
          && Truthful(result.verdict, until, turns, deadline))
  }

  lemma OneMoreTurn(until: Until, turns: seq<Turn>, turn: Turn, deadline: nat)
    requires GoesOn(until, turns, deadline) && turn.drain.Some? && !EndsAt(until, turns + [turn], deadline)
    ensures GoesOn(until, turns + [turn], deadline)
  {
    var all := turns + [turn];
    forall i | 0 <= i < |all|
      ensures all[i].drain.Some? && !EndsAt(until, all[..i + 1], deadline)
    {
      if i < |turns| {
        assert all[..i + 1] == turns[..i + 1];
      } else {
        assert all[..i + 1] == all;
      }
    }
  }

  lemma AccumulatedNext(turns: seq<Turn>, turn: Turn)
    ensures Accumulated(turns + [turn])
         == Accumulated(turns) + if turn.drain.None? then [] else Shown(turn.drain.value.mask, turn.drain.value.popped)
  {
    assert (turns + [turn])[..|turns + [turn]| - 1] == turns;
  }

  /** The loop's own test on the events so far: what it reports now, or nothing yet. */
  function Verdicted(until: Until, events: seq<SimToServer>, turn: Turn, deadline: nat): Option<Observation> {
    var waiting := HasCondition(until);
    var matched := UntilMatched(until, events, UiOf(turn.heartbeat));
    var timedOut := turn.now >= deadline;
    if (waiting && (matched || timedOut)) || (!waiting && timedOut)
    then Some(Observed(events, if waiting then Some(Verdict(matched, !matched)) else None))
    else None
  }

  /** The test is whether the loop ends here, and its answer is then the one it must give. */
  lemma VerdictIsRight(until: Until, turns: seq<Turn>, turn: Turn, deadline: nat)
    requires GoesOn(until, turns, deadline) && turn.drain.Some?
    ensures var report := Verdicted(until, Accumulated(turns + [turn]), turn, deadline);
            && (report.Some? ==> Reports(report.value, until, turns + [turn], deadline))
            && (report.None? ==> GoesOn(until, turns + [turn], deadline) && turn.now < deadline)
  {
    assert (turns + [turn])[..|turns|] == turns;
    if !EndsAt(until, turns + [turn], deadline) {
      OneMoreTurn(until, turns, turn, deadline);
    }
  }

  lemma GoneHere(until: Until, turns: seq<Turn>, turn: Turn, deadline: nat)
    requires GoesOn(until, turns, deadline) && turn.drain.None?
    ensures Reports(Gone, until, turns + [turn], deadline)
  {
    assert (turns + [turn])[..|turns|] == turns;
  }

  /** The end of one turn: report, or sleep. */
  method Judge(until: Until, ghost turns: seq<Turn>, turn: Turn, events: seq<SimToServer>, deadline: nat)
    returns (report: Option<Observation>)
    requires GoesOn(until, turns, deadline) && turn.drain.Some? && events == Accumulated(turns + [turn])
    ensures report.Some? ==> Reports(report.value, until, turns + [turn], deadline)
    ensures report.None? ==> GoesOn(until, turns + [turn], deadline) && turn.now < deadline
  {
    VerdictIsRight(until, turns, turn, deadline);
    var waiting := HasCondition(until);
    var matched := UntilMatched(until, events, UiOf(turn.heartbeat));
    var timedOut := turn.now >= deadline;
    if (waiting && (matched || timedOut)) || (!waiting && timedOut) {
      return Some(Observed(events, if waiting then Some(Verdict(matched, !matched)) else None));
    }
    return None;
  }

  /**
   `n` is the number of sleeps. The wait ends at the first turn that can end it, with exactly what the drains up
   to it showed.
   */
  method ObserveUntil(until: Until, timeout: nat, start: nat, turns: nat -> Turn) returns (result: Observation, n: nat)
    requires Clocked(Times(turns), start, POLL_MS)
    ensures Reports(result, until, Upto(turns, n) + [turns(n)], start + timeout) && POLL_MS * n < timeout + POLL_MS
  {
    n := 0;
    var deadline, events := start + timeout, [];
    ghost var before := [];
    assert Upto(turns, 0) == before;
    while true
      invariant before == Upto(turns, n) && GoesOn(until, before, deadline) && events == Accumulated(before)
      invariant POLL_MS * n < timeout + POLL_MS
      decreases timeout + POLL_MS - POLL_MS * n
    {
      var turn := turns(n);
      if turn.drain.None? {
        GoneHere(until, before, turn, deadline);
        return Gone, n;
      }
      AccumulatedNext(before, turn);
      events := events + Shown(turn.drain.value.mask, turn.drain.value.popped);
      var report := Judge(until, before, turn, events, deadline);
      if report.Some? {
        return report.value, n;
      }
      ClockAdvances(Times(turns), start, POLL_MS, n);
      UptoNext(turns, n);
      before := before + [turn];
      n := n + 1;
    }
  }

  /** How long a call waits: as long as asked for, or the default if a condition is set, or not at all. */
  function Patience(until: Until, waitMs: Option<nat>, defaultMs: nat): nat {
    if waitMs.Some? then waitMs.value else if HasCondition(until) then defaultMs else 0
  }

  /** The wait ends after this turn: a condition is met, or the time is up. */
  predicate Due(until: Until, first: Option<Heartbeat>, turns: seq<Turn>, deadline: nat)
    requires turns != []
  {
    var last := turns[|turns| - 1];
    (SetsCondition(until) && Met(until, first, Accumulated(turns), last.heartbeat)) || last.now >= deadline
  }

  /** What a wait that has taken these turns answers, in the terms of the conditions as they were asked. */
  ghost predicate AnswersRightly(
      result: Observation, until: Until, first: Option<Heartbeat>, turns: seq<Turn>, deadline: nat)
    requires turns != []
  {
    var last := turns[|turns| - 1];
    && (forall i :: 0 <= i < |turns| - 1 ==> turns[i].drain.Some? && !Due(until, first, turns[..i + 1], deadline))
    && (result.Gone? <==> last.drain.None?)
    && (result.Observed? ==>
          && result.events == Accumulated(turns) && Due(until, first, turns, deadline)
          && (result.verdict.Some? <==> SetsCondition(until))
          && (result.verdict.Some? ==>
                && (result.verdict.value.matched <==> Met(until, first, result.events, last.heartbeat))
                && (result.verdict.value.timedOut <==> !Met(until, first, result.events, last.heartbeat))
                && (result.verdict.value.timedOut ==> last.now >= deadline)))
  }

  lemma EndsIffDue(until: Until, first: Option<Heartbeat>, turns: seq<Turn>, deadline: nat)
    requires turns != []
    ensures EndsAt(Effective(until, first), turns, deadline) <==> Due(until, first, turns, deadline)
  {
    MatchedIffMet(until, first, Accumulated(turns), turns[|turns| - 1].heartbeat);
  }

  lemma GoesOnUndue(until: Until, first: Option<Heartbeat>, turns: seq<Turn>, deadline: nat)
    requires GoesOn(Effective(until, first), turns, deadline)
    ensures forall i :: 0 <= i < |turns| ==> turns[i].drain.Some? && !Due(until, first, turns[..i + 1], deadline)
  {
    forall i | 0 <= i < |turns|
      ensures turns[i].drain.Some? && !Due(until, first, turns[..i + 1], deadline)
    {
      EndsIffDue(until, first, turns[..i + 1], deadline);
    }
  }

  lemma VerdictAnswers(
      verdict: Option<Verdict>, until: Until, first: Option<Heartbeat>, turns: seq<Turn>, deadline: nat)
    requires turns != [] && Truthful(verdict, Effective(until, first), turns, deadline)
    ensures var met := Met(until, first, Accumulated(turns), turns[|turns| - 1].heartbeat);
            && (verdict.Some? <==> SetsCondition(until))
            && (verdict.Some? ==>
                  verdict.value == Verdict(met, !met) && (!met ==> turns[|turns| - 1].now >= deadline))
  {
    MatchedIffMet(until, first, Accumulated(turns), turns[|turns| - 1].heartbeat);
  }

  /** What the loop reports on normalised conditions is the right answer to the conditions asked. */
  lemma ReportsAnswer(result: Observation, until: Until, first: Option<Heartbeat>, turns: seq<Turn>, deadline: nat)
    requires turns != [] && Reports(result, Effective(until, first), turns, deadline)
    ensures AnswersRightly(result, until, first, turns, deadline)
  {
    var before := turns[..|turns| - 1];
    GoesOnUndue(until, first, before, deadline);
    forall i | 0 <= i < |before|
      ensures turns[i].drain.Some? && !Due(until, first, turns[..i + 1], deadline)
    {
      assert before[..i + 1] == turns[..i + 1] && before[i] == turns[i];
    }
    if result.Observed? {
      EndsIffDue(until, first, turns, deadline);
      VerdictAnswers(result.verdict, until, first, turns, deadline);
    }
  }

  /** The call on normalised conditions. */
  method ObserveNormalised(until: Until, waitMs: Option<nat>, defaultMs: nat, first: Option<Heartbeat>, start: nat,
      turns: nat -> Turn)
    returns (result: Observation, n: nat)
    requires Clocked(Times(turns), start, POLL_MS)
    ensures var conditions := Effective(until, first);
            var timeout := Patience(conditions, waitMs, defaultMs);
            Reports(result, conditions, Upto(turns, n) + [turns(n)], start + timeout) && POLL_MS * n < timeout + POLL_MS
  {
    var conditions := Effective(until, first);
    result, n := ObserveUntil(conditions, Patience(conditions, waitMs, defaultMs), start, turns);
  }

  function Asked(until: Until, waitMs: Option<nat>, defaultMs: nat): nat {
    if waitMs.Some? then waitMs.value else if SetsCondition(until) then defaultMs else 0
  }

  lemma PatienceIsAsked(until: Until, first: Option<Heartbeat>, waitMs: Option<nat>, defaultMs: nat)
    ensures Patience(Effective(until, first), waitMs, defaultMs) == Asked(until, waitMs, defaultMs)
  {
    MatchedIffMet(until, first, [], None);
  }

  lemma AnswerOfCall(result: Observation, until: Until, first: Option<Heartbeat>, waitMs: Option<nat>, defaultMs: nat,
      start: nat, turns: seq<Turn>)
    requires turns != []
    requires Reports(result, Effective(until, first), turns,
         start + Patience(Effective(until, first), waitMs, defaultMs))
    ensures AnswersRightly(result, until, first, turns, start + Asked(until, waitMs, defaultMs))
  {
    PatienceIsAsked(until, first, waitMs, defaultMs);
    ReportsAnswer(result, until, first, turns, start + Asked(until, waitMs, defaultMs));
  }

  /** The call, in the terms of what it was asked. */
  method ObserveWait(until: Until, waitMs: Option<nat>, defaultMs: nat, first: Option<Heartbeat>, start: nat,
      turns: nat -> Turn)
    returns (result: Observation, n: nat)
    requires Clocked(Times(turns), start, POLL_MS)
    ensures AnswersRightly(result, until, first, Upto(turns, n) + [turns(n)], start + Asked(until, waitMs, defaultMs))
    ensures 25 * n < Asked(until, waitMs, defaultMs) + 25
  {
    PatienceIsAsked(until, first, waitMs, defaultMs);
    result, n := ObserveNormalised(until, waitMs, defaultMs, first, start, turns);
    AnswerOfCall(result, until, first, waitMs, defaultMs, start, Upto(turns, n) + [turns(n)]);
  }
}
