/**
 Any number of view calls for one id at once.

 `told`, `masks` and `excludes` record, for each session, which call was the last to be sent to it, to set its mask and
 to set its excludes; no branch reads them.
 */
module ViewCalls {
  import opened Messages
  import opened Broker
  import opened Protocol
  import opened WaiterTable
  import opened Ownership
  import opened ExactlyOnce
  import opened Footprints
  import opened SessionView
  import opened ViewRuns

  datatype CallPc = Looked | Numbered(corr: nat) | Told | Masked | Ended

  datatype ViewCall = ViewCall(view: View, pc: CallPc)

  datatype Desk = Desk(
    s: State, id: string, calls: map<nat, ViewCall>, next: nat,
    told: map<nat, nat>, masks: map<nat, nat>, excludes: map<nat, nat>)

  datatype Step = Elsewhere(action: Action) | Open(view: View) | Go(n: nat)

  /** Nobody but the view calls sets the view of this id or sends it one. */
  predicate Apart(d: Desk, a: Action) {
    && (a.SetMask? || a.SetExcluded? ==> a.id != d.id)
    && (a.Begin? && a.command.SetSessionView? ==> a.id != d.id)
    && (a.Proceed? ==> forall n :: n in d.calls ==> d.calls[n].pc != Numbered(a.corr))
  }

  /** The section makes its mark on the session that holds the id, if one does. */
  function Marked(marks: map<nat, nat>, holder: Option<nat>, n: nat): map<nat, nat> {
    if holder.Some? then marks[holder.value := n] else marks
  }

  function With(d: Desk, n: nat, s: State, pc: CallPc): Desk
    requires n in d.calls
  {
    d.(s := s, calls := d.calls[n := d.calls[n].(pc := pc)])
  }

  function Went(d: Desk, n: nat): Desk
    requires n in d.calls
  {
    var view, holder := d.calls[n].view, HolderOf(d.s, d.id);
    match d.calls[n].pc
    case Looked => With(d, n, Protocol.Step(d.s, BeginOf(d.id, view)), Numbered(d.s.sh.nextCorr))
    case Numbered(corr) =>
      var s := Protocol.Step(d.s, Proceed(corr));
      if SendResult(d.s.sh, d.id).Sent? then With(d, n, s, Told).(told := Marked(d.told, holder, n))
      else With(d, n, s, Ended)
    case Told => With(d, n, Protocol.Step(d.s, SetMask(d.id, view.paths)), Masked).(masks := Marked(d.masks, holder, n))
    case Masked =>
      With(d, n, Protocol.Step(d.s, SetExcluded(d.id, view.excluded)),
        Ended).(excludes := Marked(d.excludes, holder, n))
    case Ended => d
  }

  function Next(d: Desk, step: Step): Desk {
    match step
    case Elsewhere(a) => if Apart(d, a) then d.(s := Protocol.Step(d.s, a)) else d
    case Open(view) =>
      if d.id in d.s.sh.inner then d.(calls := d.calls[d.next := ViewCall(view, Looked)], next := d.next + 1) else d
    case Go(n) => if n in d.calls then Went(d, n) else d
  }

  function History(d: Desk, steps: seq<Step>): Desk
    decreases |steps|
  {
    if steps == [] then d else History(Next(d, steps[0]), steps[1..])
  }

  function Fresh(id: string): Desk {
    Desk(START, id, map[], 0, map[], map[], map[])
  }

  // What the marks say

  /** The view of the call that left a mark on session `t`, or none. */
  function ViewAt(d: Desk, marks: map<nat, nat>, t: nat): View {
    if t in marks && marks[t] in d.calls then d.calls[marks[t]].view else NO_VIEW
  }

  ghost predicate MarksOk(d: Desk, marks: map<nat, nat>) {
    forall t :: t in marks ==> Born(d.s, t) && marks[t] in d.calls
  }

  predicate HolderOk(d: Desk, inst: Instance) {
    && inst.readMask == ViewAt(d, d.masks, inst.token).paths
    && inst.excluded == ViewAt(d, d.excludes, inst.token).excluded
  }

  /** A numbered call's request waits to be sent, and is the call's own. */
  ghost predicate RequestsOk(d: Desk) {
    && (forall n :: n in d.calls ==> n < d.next)
    && (forall n :: n in d.calls && d.calls[n].pc.Numbered? ==> RequestOk(d, n))
    && (forall n, m :: n in d.calls && m in d.calls && d.calls[n].pc.Numbered? && d.calls[n].pc == d.calls[m].pc ==>
          n == m)
  }

  predicate RequestOk(d: Desk, n: nat)
    requires n in d.calls && d.calls[n].pc.Numbered?
  {
    var c := d.calls[n].pc.corr;
    c in d.s.calls && d.s.calls[c] == CallOf(d.id, d.calls[n].view, Sending)
  }

  ghost predicate AllMarksOk(d: Desk) {
    MarksOk(d, d.told) && MarksOk(d, d.masks) && MarksOk(d, d.excludes)
  }

  ghost predicate Orderly(d: Desk) {
    && Consistent(d.s) && Registry(d.s)
    && RequestsOk(d) && AllMarksOk(d)
    && (d.id in d.s.sh.inner ==> HolderOk(d, d.s.sh.inner[d.id]))
  }

  lemma MarksStay(d: Desk, d': Desk, a: Action, marks: map<nat, nat>)
    requires Registry(d.s) && MarksOk(d, marks) && d'.s == Protocol.Step(d.s, a) && d.calls.Keys <= d'.calls.Keys
    ensures MarksOk(d', marks)
  {
    forall t | t in marks
      ensures Born(d'.s, t)
    {
      BornStays(d.s, a, t);
    }
  }

  /** A mark on the holder. */
  lemma MarkingKeeps(d: Desk, d': Desk, a: Action, marks: map<nat, nat>, n: nat)
    requires Registry(d.s) && MarksOk(d, marks) && d'.s == Protocol.Step(d.s, a) && d.calls.Keys <= d'.calls.Keys
    requires n in d.calls
    ensures MarksOk(d', Marked(marks, HolderOf(d.s, d.id), n))
  {
    MarksStay(d, d', a, marks);
    if d.id in d.s.sh.inner {
      HolderBorn(d.s, d.id);
      BornStays(d.s, a, d.s.sh.inner[d.id].token);
    }
  }

  lemma SameViewOk(d: Desk, inst: Instance, inst': Instance)
    requires HolderOk(d, inst) && SameView(inst, inst')
    ensures HolderOk(d, inst')
  {
  }

  lemma ElsewhereEntry(d: Desk, a: Action)
    requires Orderly(d) && Apart(d, a)
    ensures d.id in Protocol.Step(d.s, a).sh.inner ==> HolderOk(d, Protocol.Step(d.s, a).sh.inner[d.id])
  {
    var s' := Protocol.Step(d.s, a);
    if d.id in s'.sh.inner && a != Drain(d.id) {
      EntryStep(d.s, a, d.id);
      if d.id in d.s.sh.inner && SameView(d.s.sh.inner[d.id], s'.sh.inner[d.id]) {
        SameViewOk(d, d.s.sh.inner[d.id], s'.sh.inner[d.id]);
      } else {
        assert !Born(d.s, a.token);
      }
    }
  }

  lemma ElsewhereRequests(d: Desk, a: Action)
    requires Orderly(d) && Apart(d, a)
    ensures RequestsOk(d.(s := Protocol.Step(d.s, a)))
  {
    var d' := d.(s := Protocol.Step(d.s, a));
    forall n | n in d.calls && d.calls[n].pc.Numbered?
      ensures RequestOk(d', n)
    {
      assert RequestOk(d, n);
      DrawnStays(d.s, a, d.calls[n].pc.corr);
    }
  }

  lemma ElsewhereKeeps(d: Desk, a: Action)
    requires Orderly(d) && Apart(d, a)
    ensures Orderly(Next(d, Elsewhere(a)))
  {
    var d' := d.(s := Protocol.Step(d.s, a));
    ConsistentStep(d.s, a);
    RegistryStep(d.s, a);
    MarksStay(d, d', a, d.told);
    MarksStay(d, d', a, d.masks);
    MarksStay(d, d', a, d.excludes);
    ElsewhereRequests(d, a);
    ElsewhereEntry(d, a);
  }

  /** A call's own section: the requests of the other calls stay, whatever becomes of its own. */
  lemma OwnRequests(d: Desk, a: Action, n: nat, pc: CallPc)
    requires Orderly(d) && n in d.calls && !pc.Numbered?
    requires a.Proceed? ==> d.calls[n].pc == Numbered(a.corr)
    ensures RequestsOk(With(d, n, Protocol.Step(d.s, a), pc))
  {
    var d' := With(d, n, Protocol.Step(d.s, a), pc);
    forall m | m in d'.calls && d'.calls[m].pc.Numbered?
      ensures RequestOk(d', m)
    {
      assert RequestOk(d, m) && (a.Proceed? ==> d.calls[m].pc != d.calls[n].pc);
      DrawnStays(d.s, a, d.calls[m].pc.corr);
    }
  }

  lemma NumberedRequests(d: Desk, n: nat)
    requires Orderly(d) && n in d.calls
    ensures RequestsOk(With(d, n, Protocol.Step(d.s, BeginOf(d.id, d.calls[n].view)), Numbered(d.s.sh.nextCorr)))
  {
    var a := BeginOf(d.id, d.calls[n].view);
    var d' := With(d, n, Protocol.Step(d.s, a), Numbered(d.s.sh.nextCorr));
    NumberIsFresh(d.s);
    assert d'.s == Begun(d.s, d.id, false, WaitAny, a.command);
    forall m | m in d'.calls && d'.calls[m].pc.Numbered?
      ensures RequestOk(d', m)
    {
      assert m != n ==> RequestOk(d, m);
    }
    assert forall m :: m in d.calls && d.calls[m].pc.Numbered? ==> RequestOk(d, m);
  }

  /** The state after a call's own section is a consistent one, and old marks remain marks. */
  lemma OwnState(d: Desk, d': Desk, a: Action)
    requires Orderly(d) && d'.s == Protocol.Step(d.s, a) && d.calls.Keys <= d'.calls.Keys
    ensures Consistent(d'.s) && Registry(d'.s)
    ensures MarksOk(d', d.told) && MarksOk(d', d.masks) && MarksOk(d', d.excludes)
  {
    ConsistentStep(d.s, a);
    RegistryStep(d.s, a);
    MarksStay(d, d', a, d.told);
    MarksStay(d, d', a, d.masks);
    MarksStay(d, d', a, d.excludes);
  }

  /** The marks name the same views, however far the calls have come. */
  lemma ViewsStay(d: Desk, n: nat, s: State, pc: CallPc, marks: map<nat, nat>, t: nat)
    requires n in d.calls
    ensures ViewAt(With(d, n, s, pc), marks, t) == ViewAt(d, marks, t)
  {
  }

  lemma NumberingKeeps(d: Desk, n: nat)
    requires Orderly(d) && n in d.calls && d.calls[n].pc.Looked?
    ensures Orderly(Went(d, n))
  {
    var d', a := Went(d, n), BeginOf(d.id, d.calls[n].view);
    OwnState(d, d', a);
    NumberedRequests(d, n);
    if d.id in d.s.sh.inner {
      ViewsStay(d, n, d'.s, d'.calls[n].pc, d.masks, d.s.sh.inner[d.id].token);
      ViewsStay(d, n, d'.s, d'.calls[n].pc, d.excludes, d.s.sh.inner[d.id].token);
    }
    assert d'.s.sh.inner == d.s.sh.inner;
  }

  lemma UnmarkedHolder(d: Desk, n: nat, s: State, pc: CallPc, told: map<nat, nat>)
    requires n in d.calls && d.id in d.s.sh.inner && d.id in s.sh.inner && HolderOk(d, d.s.sh.inner[d.id])
    requires SameView(d.s.sh.inner[d.id], s.sh.inner[d.id])
    ensures HolderOk(With(d, n, s, pc).(told := told), s.sh.inner[d.id])
  {
    var t := d.s.sh.inner[d.id].token;
    ViewsStay(d, n, s, pc, d.masks, t);
    ViewsStay(d, n, s, pc, d.excludes, t);
  }

  lemma SendKeepsView(s: State, c: nat, id: string)
    requires c in s.calls && s.calls[c].phase.Sending? && id in s.sh.inner
    ensures id in Protocol.Step(s, Proceed(c)).sh.inner
    ensures SameView(s.sh.inner[id], Protocol.Step(s, Proceed(c)).sh.inner[id])
  {
    assert Protocol.Step(s, Proceed(c)) == Dispatched(s, c);
  }

  lemma SendKeepsAbsence(s: State, c: nat, id: string)
    requires c in s.calls && s.calls[c].phase.Sending? && id !in s.sh.inner
    ensures id !in Protocol.Step(s, Proceed(c)).sh.inner
  {
    assert Protocol.Step(s, Proceed(c)) == Dispatched(s, c);
  }

  lemma TellingHolder(d: Desk, n: nat)
    requires Orderly(d) && n in d.calls && d.calls[n].pc.Numbered? && d.id in d.s.sh.inner
    ensures d.id in Went(d, n).s.sh.inner && HolderOk(Went(d, n), Went(d, n).s.sh.inner[d.id])
  {
    var c := d.calls[n].pc.corr;
    assert RequestOk(d, n);
    SendKeepsView(d.s, c, d.id);
    UnmarkedHolder(d, n, Protocol.Step(d.s, Proceed(c)), Went(d, n).calls[n].pc, Went(d, n).told);
  }

  lemma TellingMarks(d: Desk, n: nat)
    requires Orderly(d) && n in d.calls && d.calls[n].pc.Numbered?
    ensures Consistent(Went(d, n).s) && Registry(Went(d, n).s) && AllMarksOk(Went(d, n))
  {
    var a := Proceed(d.calls[n].pc.corr);
    OwnState(d, Went(d, n), a);
    MarkingKeeps(d, Went(d, n), a, d.told, n);
  }

  lemma TellingRequests(d: Desk, n: nat)
    requires Orderly(d) && n in d.calls && d.calls[n].pc.Numbered?
    ensures RequestsOk(Went(d, n))
  {
    OwnRequests(d, Proceed(d.calls[n].pc.corr), n, Went(d, n).calls[n].pc);
  }

  lemma TellingKeeps(d: Desk, n: nat)
    requires Orderly(d) && n in d.calls && d.calls[n].pc.Numbered?
    ensures Orderly(Went(d, n))
  {
    TellingMarks(d, n);
    TellingRequests(d, n);
    if d.id in d.s.sh.inner {
      TellingHolder(d, n);
    } else {
      assert RequestOk(d, n);
      SendKeepsAbsence(d.s, d.calls[n].pc.corr, d.id);
    }
  }

  lemma MaskingHolder(d: Desk, n: nat)
    requires Orderly(d) && n in d.calls && d.calls[n].pc.Told? && d.id in Went(d, n).s.sh.inner
    ensures HolderOk(Went(d, n), Went(d, n).s.sh.inner[d.id])
  {
    var d' := Went(d, n);
    ViewsStay(d, n, d'.s, d'.calls[n].pc, d.excludes, d.s.sh.inner[d.id].token);
  }

  lemma MaskingMarks(d: Desk, n: nat)
    requires Orderly(d) && n in d.calls && d.calls[n].pc.Told?
    ensures Consistent(Went(d, n).s) && Registry(Went(d, n).s) && AllMarksOk(Went(d, n))
  {
    var a := SetMask(d.id, d.calls[n].view.paths);
    OwnState(d, Went(d, n), a);
    MarkingKeeps(d, Went(d, n), a, d.masks, n);
  }

  lemma MaskingRequests(d: Desk, n: nat)
    requires Orderly(d) && n in d.calls && d.calls[n].pc.Told?
    ensures RequestsOk(Went(d, n))
  {
    OwnRequests(d, SetMask(d.id, d.calls[n].view.paths), n, Masked);
  }

  lemma MaskingKeeps(d: Desk, n: nat)
    requires Orderly(d) && n in d.calls && d.calls[n].pc.Told?
    ensures Orderly(Went(d, n))
  {
    MaskingMarks(d, n);
    MaskingRequests(d, n);
    if d.id in Went(d, n).s.sh.inner {
      MaskingHolder(d, n);
    }
  }

  lemma ExcludingHolder(d: Desk, n: nat)
    requires Orderly(d) && n in d.calls && d.calls[n].pc.Masked? && d.id in Went(d, n).s.sh.inner
    ensures HolderOk(Went(d, n), Went(d, n).s.sh.inner[d.id])
  {
    var d' := Went(d, n);
    ViewsStay(d, n, d'.s, d'.calls[n].pc, d.masks, d.s.sh.inner[d.id].token);
  }

  lemma ExcludingMarks(d: Desk, n: nat)
    requires Orderly(d) && n in d.calls && d.calls[n].pc.Masked?
    ensures Consistent(Went(d, n).s) && Registry(Went(d, n).s) && AllMarksOk(Went(d, n))
  {
    var a := SetExcluded(d.id, d.calls[n].view.excluded);
    OwnState(d, Went(d, n), a);
    MarkingKeeps(d, Went(d, n), a, d.excludes, n);
  }

  lemma ExcludingRequests(d: Desk, n: nat)
    requires Orderly(d) && n in d.calls && d.calls[n].pc.Masked?
    ensures RequestsOk(Went(d, n))
  {
    OwnRequests(d, SetExcluded(d.id, d.calls[n].view.excluded), n, Ended);
  }

  lemma ExcludingKeeps(d: Desk, n: nat)
    requires Orderly(d) && n in d.calls && d.calls[n].pc.Masked?
    ensures Orderly(Went(d, n))
  {
    ExcludingMarks(d, n);
    ExcludingRequests(d, n);
    if d.id in Went(d, n).s.sh.inner {
      ExcludingHolder(d, n);
    }
  }

  lemma OpenRequests(d: Desk, view: View)
    requires RequestsOk(d)
    ensures RequestsOk(Next(d, Open(view)))
  {
    var d' := Next(d, Open(view));
    forall n | n in d'.calls && d'.calls[n].pc.Numbered?
      ensures RequestOk(d', n)
    {
      assert RequestOk(d, n);
    }
  }

  lemma OpenMarks(d: Desk, view: View)
    requires AllMarksOk(d)
    ensures AllMarksOk(Next(d, Open(view)))
  {
  }

  lemma OpenHolder(d: Desk, view: View)
    requires RequestsOk(d) && AllMarksOk(d) && d.id in d.s.sh.inner && HolderOk(d, d.s.sh.inner[d.id])
    ensures HolderOk(Next(d, Open(view)), d.s.sh.inner[d.id])
  {
    assert d.next !in d.calls;
  }

  lemma OpenKeeps(d: Desk, view: View)
    requires Orderly(d)
    ensures Orderly(Next(d, Open(view)))
  {
    OpenRequests(d, view);
    OpenMarks(d, view);
    if d.id in d.s.sh.inner {
      OpenHolder(d, view);
    }
  }

  lemma OrderlyNext(d: Desk, step: Step)
    requires Orderly(d)
    ensures Orderly(Next(d, step))
  {
    match step
    case Elsewhere(a) =>
      if Apart(d, a) {
        ElsewhereKeeps(d, a);
      }
    case Open(view) => OpenKeeps(d, view);
    case Go(n) =>
      if n in d.calls {
        match d.calls[n].pc
        case Looked => NumberingKeeps(d, n);
        case Numbered(_) => TellingKeeps(d, n);
        case Told => MaskingKeeps(d, n);
        case Masked => ExcludingKeeps(d, n);
        case Ended =>
      }
  }

  lemma {:induction false} OrderlyHistory(d: Desk, steps: seq<Step>)
    requires Orderly(d)
    ensures Orderly(History(d, steps))
    decreases |steps|
  {
    if steps == [] {
    } else {
      OrderlyNext(d, steps[0]);
      OrderlyHistory(Next(d, steps[0]), steps[1..]);
    }
  }

  lemma {:induction false} IdStays(d: Desk, steps: seq<Step>)
    ensures History(d, steps).id == d.id
    decreases |steps|
  {
    if steps == [] {
    } else {
      IdStays(Next(d, steps[0]), steps[1..]);
    }
  }

  /** Host and wire agree on session `t`, the holder of the id. */
  predicate Agree(d: Desk, t: nat)
    requires d.id in d.s.sh.inner
  {
    HostView(d.s.sh.inner[d.id]) == ViewAt(d, d.told, t)
  }

  /** The three last marks on session `t`: whose request, whose mask, whose excludes. */
  predicate OneCall(d: Desk, t: nat) {
    (t in d.told <==> t in d.masks) && (t in d.told <==> t in d.excludes)
    && (t in d.told && t in d.masks && t in d.excludes ==> d.told[t] == d.masks[t] == d.excludes[t])
  }

  /**
   With any number of concurrent view calls, over every history: host and wire agree on the holder of the id if and only
   if the call that set its mask last had the paths, and the call that set its excludes last had the excludes, of the
   call that was sent to it last. In particular they agree when the three were one call.
   */
  lemma AgreeIff(id: string, steps: seq<Step>)
    requires id in History(Fresh(id), steps).s.sh.inner
    ensures var d := History(Fresh(id), steps);
            var t := d.s.sh.inner[id].token;
            && d.id == id
            && (Agree(d, t) <==>
                && ViewAt(d, d.masks, t).paths == ViewAt(d, d.told, t).paths
                && ViewAt(d, d.excludes, t).excluded == ViewAt(d, d.told, t).excluded)
            && (OneCall(d, t) ==> Agree(d, t))
  {
    OrderlyHistory(Fresh(id), steps);
    IdStays(Fresh(id), steps);
  }

  /** The marks of a request are what went out: its wire form, appended to the holder's channel. */
  lemma TellingEnqueues(d: Desk, n: nat)
    requires Orderly(d) && n in d.calls && d.calls[n].pc.Numbered? && SendResult(d.s.sh, d.id).Sent?
    ensures var d', t, view := Went(d, n), d.s.sh.inner[d.id].token, d.calls[n].view;
            && t in d'.told && d'.told[t] == n && d.id in d'.s.sh.inner
            && d'.s.sh.inner[d.id].outbound
            == d.s.sh.inner[d.id].outbound + [ViewEnvelope(d.calls[n].pc.corr, view.paths, view.excluded)]
  {
    SendEnqueues(d.s, d.calls[n].pc.corr, d.id, d.calls[n].view);
  }
}
