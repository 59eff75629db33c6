/** Reference semantics of the mediator's dispatch: which line each component
    operation prints, which event it raises, how the mediator reacts to each
    event, and the complete chain of invocations, printed lines and
    notifications that one operation sets off. The classes in module Program
    are proved to perform exactly these chains. */
module Dispatch {

  // The texts printed to the console.

  const AnnouncementTextA: string := "Component 1 does A."
  const AnnouncementTextB: string := "Component 1 does B."
  const AnnouncementTextC: string := "Component 2 does C."
  const AnnouncementTextD: string := "Component 2 does D."
  const BannerTextA: string := "Mediator reacts on A and triggers following operations:"
  const BannerTextD: string := "Mediator reacts on D and triggers following operations:"

  /** The four component operations: Component1 offers DoA and DoB,
      Component2 offers DoC and DoD. */
  datatype Op = DoA | DoB | DoC | DoD

  /** One observable step of a run: a component operation is invoked, a line
      is written to the console, or the mediator is notified of an event. */
  datatype Step = Invoked(op: Op) | Printed(line: string) | Notified(eventId: string)

  /** The event identifier an operation hands to the mediator. */
  function EventId(op: Op): string
  {
    match op
    case DoA => "A"
    case DoB => "B"
    case DoC => "C"
    case DoD => "D"
  }

  /** The line an operation prints before it notifies the mediator. */
  function Announcement(op: Op): string
  {
    match op
    case DoA => AnnouncementTextA
    case DoB => AnnouncementTextB
    case DoC => AnnouncementTextC
    case DoD => AnnouncementTextD
  }

  /** The dispatch table: the follow-up operations, in order, that the
      mediator invokes for an event. Every other event has no rule. */
  function Rules(eventId: string): seq<Op>
  {
    if eventId == "A" then [DoC]
    else if eventId == "D" then [DoB, DoC]
    else []
  }

  /** The line the mediator prints before it runs the follow-ups of an event
      that has a rule. */
  function Banner(eventId: string): string
    requires Rules(eventId) != []
  {
    if eventId == "A" then BannerTextA
    else BannerTextD
  }

  /** Termination measure: an event with a rule outranks one without. */
  function Rank(eventId: string): nat
  {
    if |Rules(eventId)| == 0 then 0 else 1
  }

  /** No follow-up operation raises an event that has a rule of its own, so
      every reaction stops one level down; in particular a follow-up's event
      is ranked below the event that triggered it. */
  lemma FollowUpsAreInert(eventId: string)
    ensures forall op :: op in Rules(eventId) ==> Rules(EventId(op)) == []
    ensures forall op :: op in Rules(eventId) ==> Rank(EventId(op)) < Rank(eventId)
  {
  }

  // What the console shows.

  /** The lines printed when `op` is invoked: its announcement, then what the
      mediator prints in reaction to its event. */
  function OpLines(op: Op): seq<string>
    decreases Rank(EventId(op)), 3, 0
  {
    [Announcement(op)] + NotifyLines(EventId(op))
  }

  /** The lines printed when the mediator is notified of `eventId`: none for
      an event without a rule, otherwise the banner followed by the lines of
      each follow-up operation. */
  function NotifyLines(eventId: string): seq<string>
    decreases Rank(eventId), 2, 0
  {
    if |Rules(eventId)| == 0 then []
    else [Banner(eventId)] + FollowUpLines(eventId, 0)
  }

  /** The lines printed by the follow-ups of `eventId` from the `i`-th on. */
  function FollowUpLines(eventId: string, i: nat): seq<string>
    requires i <= |Rules(eventId)|
    decreases Rank(eventId), 1, |Rules(eventId)| - i
  {
    if i == |Rules(eventId)| then []
    else
      OpLines(Rules(eventId)[i]) + FollowUpLines(eventId, i + 1)
  }

  // The whole call chain.

  /** Everything that happens, in order, when `op` is invoked: the
      invocation, its announcement, then the notification of its event. */
  function OpSteps(op: Op): seq<Step>
    decreases Rank(EventId(op)), 3, 0
  {
    [Invoked(op), Printed(Announcement(op))] + NotifySteps(EventId(op))
  }

  /** Everything that happens, in order, when the mediator is notified of
      `eventId`: nothing beyond the notification itself when the event has no
      rule, otherwise the banner followed by each follow-up operation. */
  function NotifySteps(eventId: string): seq<Step>
    decreases Rank(eventId), 2, 0
  {
    [Notified(eventId)] +
    if |Rules(eventId)| == 0 then []
    else [Printed(Banner(eventId))] + FollowUpSteps(eventId, 0)
  }

  /** The steps of running the follow-ups of `eventId` from the `i`-th on,
      one after the other. */
  function FollowUpSteps(eventId: string, i: nat): seq<Step>
    requires i <= |Rules(eventId)|
    decreases Rank(eventId), 1, |Rules(eventId)| - i
  {
    if i == |Rules(eventId)| then []
    else
      OpSteps(Rules(eventId)[i]) + FollowUpSteps(eventId, i + 1)
  }

  /** The console output of a sequence of steps: its printed lines, in order. */
  function Output(steps: seq<Step>): seq<string>
  {
    if steps == [] then []
    else (if steps[0].Printed? then [steps[0].line] else []) + Output(steps[1..])
  }

  /** The output of two runs one after the other is their outputs one after the other. */
  lemma {:induction false} OutputAppend(a: seq<Step>, b: seq<Step>)
    ensures Output(a + b) == Output(a) + Output(b)
    decreases |a|
  {
    if a == [] {
      assert a + b == b;
    } else {
      assert (a + b)[1..] == a[1..] + b;
      OutputAppend(a[1..], b);
    }
  }

  /** The lines printed along the call chain of `op` are exactly the lines
      `op` prints: the two descriptions of a run agree. */
  lemma {:induction false} OpStepsPrintOpLines(op: Op)
    ensures Output(OpSteps(op)) == OpLines(op)
    decreases Rank(EventId(op)), 3, 0
  {
    var head := [Invoked(op), Printed(Announcement(op))];
    OutputAppend(head, NotifySteps(EventId(op)));
    assert head[1..][1..] == [];
    NotifyStepsPrintNotifyLines(EventId(op));
  }

  /** The lines printed along a notification's chain are exactly the
      mediator's reaction lines. */
  lemma {:induction false} NotifyStepsPrintNotifyLines(eventId: string)
    ensures Output(NotifySteps(eventId)) == NotifyLines(eventId)
    decreases Rank(eventId), 2, 0
  {
    if |Rules(eventId)| == 0 {
      assert NotifySteps(eventId) == [Notified(eventId)];
      assert [Notified(eventId)][1..] == [];
    } else {
      var banner := [Printed(Banner(eventId))];
      var rest := banner + FollowUpSteps(eventId, 0);
      OutputAppend([Notified(eventId)], rest);
      assert [Notified(eventId)][1..] == [];
      OutputAppend(banner, FollowUpSteps(eventId, 0));
      assert banner[1..] == [];
      FollowUpStepsPrintFollowUpLines(eventId, 0);
    }
  }

  /** The lines printed along the follow-ups' chains are exactly the lines
      of the follow-ups. */
  lemma {:induction false} FollowUpStepsPrintFollowUpLines(eventId: string, i: nat)
    requires i <= |Rules(eventId)|
    ensures Output(FollowUpSteps(eventId, i)) == FollowUpLines(eventId, i)
    decreases Rank(eventId), 1, |Rules(eventId)| - i
  {
    if i < |Rules(eventId)| {
      FollowUpsAreInert(eventId);
      var op := Rules(eventId)[i];
      OutputAppend(OpSteps(op), FollowUpSteps(eventId, i + 1));
      OpStepsPrintOpLines(op);
      FollowUpStepsPrintFollowUpLines(eventId, i + 1);
    }
  }

  // How the chains unfold, in the shape the imperative methods perform them.

  /** A run that invokes `op`, prints its announcement and then notifies
      the mediator has performed exactly the steps of `op`. */
  lemma OpStepsAfter(history: seq<Step>, op: Op)
    ensures history + [Invoked(op)] + [Printed(Announcement(op))] + NotifySteps(EventId(op))
         == history + OpSteps(op)
  {
  }

  /** A run that is notified of "A", prints the banner and then performs
      DoC has performed exactly the steps of the notification of "A". */
  lemma NotifyStepsAfterA(history: seq<Step>)
    ensures history + [Notified("A")] + [Printed(Banner("A"))] + OpSteps(DoC)
         == history + NotifySteps("A")
  {
    assert FollowUpSteps("A", 0) == OpSteps(DoC) + FollowUpSteps("A", 1);
  }

  /** A run that is notified of "D", prints the banner and then performs
      DoB and DoC has performed exactly the steps of the notification of "D". */
  lemma NotifyStepsAfterD(history: seq<Step>)
    ensures history + [Notified("D")] + [Printed(Banner("D"))] + OpSteps(DoB) + OpSteps(DoC)
         == history + NotifySteps("D")
  {
    assert FollowUpSteps("D", 1) == OpSteps(DoC) + FollowUpSteps("D", 2);
    assert FollowUpSteps("D", 0) == OpSteps(DoB) + OpSteps(DoC);
  }

  /** A run that is notified of an event without a rule, and does nothing
      else, has performed exactly the steps of that notification. */
  lemma NotifyStepsAfterInert(history: seq<Step>, eventId: string)
    requires Rules(eventId) == []
    ensures history + [Notified(eventId)] == history + NotifySteps(eventId)
  {
  }

  /** Printing the banner of "A" and then DoC's lines prints the mediator's
      reaction to "A". */
  lemma NotifyLinesAfterA(lines: seq<string>)
    ensures lines + [Banner("A")] + OpLines(DoC) == lines + NotifyLines("A")
  {
    assert FollowUpLines("A", 0) == OpLines(DoC) + FollowUpLines("A", 1);
  }

  /** Printing the banner of "D" and then the lines of DoB and DoC prints
      the mediator's reaction to "D". */
  lemma NotifyLinesAfterD(lines: seq<string>)
    ensures lines + [Banner("D")] + OpLines(DoB) + OpLines(DoC) == lines + NotifyLines("D")
  {
    assert FollowUpLines("D", 1) == OpLines(DoC) + FollowUpLines("D", 2);
    assert FollowUpLines("D", 0) == OpLines(DoB) + OpLines(DoC);
  }

  // Properties of the dispatch.

  /** The mediator prints something exactly when the event is "A" or "D";
      for every other event (among them "B" and "C") the notification is the
      whole chain: no line and no further invocation. */
  lemma NotifyNoOpUnlessAOrD(eventId: string)
    ensures NotifyLines(eventId) == [] <==> eventId != "A" && eventId != "D"
    ensures eventId != "A" && eventId != "D" ==> NotifySteps(eventId) == [Notified(eventId)]
  {
  }

  /** An operation whose event has no rule is invoked, prints its own line,
      notifies the mediator, and sets off nothing more. */
  lemma InertOpSteps(op: Op)
    requires Rules(EventId(op)) == []
    ensures OpSteps(op) == [Invoked(op), Printed(Announcement(op)), Notified(EventId(op))]
    ensures OpLines(op) == [Announcement(op)]
  {
  }

  /** The chain set off by a notification of "A": the banner, then DoC,
      whose own notification of "C" does nothing. */
  lemma NotifyChainA()
    ensures NotifySteps("A") ==
      [Notified("A"), Printed(BannerTextA),
       Invoked(DoC), Printed(AnnouncementTextC), Notified("C")]
  {
    NotifyStepsAfterA([]);
    InertOpSteps(DoC);
  }

  /** The chain set off by a notification of "D": the banner, then DoB and
      DoC in that order, whose notifications of "B" and "C" do nothing. */
  lemma NotifyChainD()
    ensures NotifySteps("D") ==
      [Notified("D"), Printed(BannerTextD),
       Invoked(DoB), Printed(AnnouncementTextB), Notified("B"),
       Invoked(DoC), Printed(AnnouncementTextC), Notified("C")]
  {
    NotifyStepsAfterD([]);
    InertOpSteps(DoB);
    InertOpSteps(DoC);
  }

  /** Every chain started by an operation is finite and short: at most ten
      steps, the longest being the one started by DoD. */
  lemma {:induction false} ChainBounded(op: Op)
    ensures |OpSteps(op)| <= 10
    ensures op == DoD ==> |OpSteps(op)| == 10
  {
    match op
    case DoA => NotifyChainA();
    case DoB => InertOpSteps(DoB);
    case DoC => InertOpSteps(DoC);
    case DoD => NotifyChainD();
  }

  /** The mediator's reaction to "A": its banner, then exactly what
      Component2's DoC prints. */
  lemma ReactionA()
    ensures NotifyLines("A") ==
      [BannerTextA] + OpLines(DoC)
    ensures NotifyLines("A") ==
      [BannerTextA, AnnouncementTextC]
  {
    NotifyLinesAfterA([]);
    InertOpSteps(DoC);
  }

  /** The mediator's reaction to "D": its banner, then what Component1's DoB
      prints, then what Component2's DoC prints, in that order. */
  lemma ReactionD()
    ensures NotifyLines("D") ==
      [BannerTextD] + OpLines(DoB) + OpLines(DoC)
    ensures NotifyLines("D") ==
      [BannerTextD,
       AnnouncementTextB,
       AnnouncementTextC]
  {
    NotifyLinesAfterD([]);
    InertOpSteps(DoB);
    InertOpSteps(DoC);
  }

  /** Scenario 1: Component1's DoA prints its line, then the mediator's
      reaction to "A". */
  lemma ScenarioA()
    ensures OpLines(DoA) ==
      [AnnouncementTextA,
       BannerTextA,
       AnnouncementTextC]
  {
    ReactionA();
  }

  /** Scenario 2: Component2's DoD prints its line, then the mediator's
      reaction to "D". */
  lemma ScenarioD()
    ensures OpLines(DoD) ==
      [AnnouncementTextD,
       BannerTextD,
       AnnouncementTextB,
       AnnouncementTextC]
  {
    ReactionD();
  }
}
