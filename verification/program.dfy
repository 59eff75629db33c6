/** The mediator, its two components and the demonstration that wires them
    and triggers DoA and DoD. Console output goes to a Console object that
    every operation appends to; its ghost history also records each
    invocation and notification, so that every method is proved to perform
    exactly the chain of steps that module Dispatch prescribes. */
module Program {
  import opened Dispatch

  /** The standard output stream. `lines` is what has been written so far;
      `history` is the instrumented record of the run: every invocation,
      printed line and notification, in order. */
  class Console {
    var lines: seq<string>
    ghost var history: seq<Step>

    constructor ()
      ensures lines == [] && history == []
    {
      lines := [];
      history := [];
    }

    /** Writes one line (the empty string for a blank line). */
    method WriteLine(line: string)
      modifies this
      ensures lines == old(lines) + [line]
      ensures history == old(history) + [Printed(line)]
    {
      lines := lines + [line];
      history := history + [Printed(line)];
    }

    /** Records an invocation or a notification; nothing is written. */
    ghost method Record(step: Step)
      requires !step.Printed?
      modifies this
      ensures lines == old(lines)
      ensures history == old(history) + [step]
    {
      history := history + [step];
    }
  }

  /** Coordinates Component1 and Component2: reacts to the events they raise
      by invoking follow-up operations on them, as the dispatch table says. */
  class ConcreteMediator {
    const component1: Component1
    const component2: Component2

    /** Both components refer back to this mediator. */
    ghost predicate Wired()
      reads component1, component2
    {
      component1.mediator == this && component2.mediator == this
    }

    /** The mediator of the component that offers `op`. */
    ghost function MediatorOf(op: Op): ConcreteMediator?
      reads component1, component2
    {
      match op
      case DoA | DoB => component1.mediator
      case DoC | DoD => component2.mediator
    }

    /** What reacting to `eventId` dereferences: every follow-up operation
        is offered by a component whose mediator is set. */
    ghost predicate CanNotify(eventId: string)
      reads component1, component2
    {
      forall op :: op in Rules(eventId) ==> MediatorOf(op) != null
    }

    /** Stores both components and makes itself the mediator of each. */
    constructor (component1: Component1, component2: Component2)
      modifies component1, component2
      ensures this.component1 == component1 && this.component2 == component2
      ensures Wired()
    {
      this.component1 := component1;
      this.component2 := component2;
      new;
      component1.SetMediator(this);
      component2.SetMediator(this);
    }

    /** Once wired, the mediator can react to any event. */
    lemma WiredCanNotify(eventId: string)
      requires Wired()
      ensures CanNotify(eventId)
    {
    }

    /** Reacts to `eventId`, whoever the sender: prints the banner and runs
        the follow-ups for "A" and "D", and does nothing for any other event. */
    method Notify(sender: object, eventId: string, console: Console)
      requires CanNotify(eventId)
      modifies console
      decreases Rank(eventId), 2, 0
      ensures console.history == old(console.history) + NotifySteps(eventId)
      ensures console.lines == old(console.lines) + NotifyLines(eventId)
    {
      console.Record(Notified(eventId));
      if eventId == "A" {
        console.WriteLine(BannerTextA);
        assert MediatorOf(Op.DoC) != null;
        component2.DoC(console);
        NotifyStepsAfterA(old(console.history));
        NotifyLinesAfterA(old(console.lines));
      }
      if eventId == "D" {
        console.WriteLine(BannerTextD);
        assert MediatorOf(Op.DoB) != null && MediatorOf(Op.DoC) != null;
        component1.DoB(console);
        component2.DoC(console);
        NotifyStepsAfterD(old(console.history));
        NotifyLinesAfterD(old(console.lines));
      }
      if eventId != "A" && eventId != "D" {
        NotifyStepsAfterInert(old(console.history), eventId);
      }
    }
  }

  /** Component1 offers DoA and DoB; each prints its line and notifies the mediator. */
  class Component1 {
    var mediator: ConcreteMediator?

    /** A new component has no mediator. */
    constructor ()
      ensures mediator == null
    {
      mediator := null;
    }

    /** Replaces the mediator and changes nothing else. */
    method SetMediator(mediator: ConcreteMediator?)
      modifies this
      ensures this.mediator == mediator
    {
      this.mediator := mediator;
    }

    method DoA(console: Console)
      requires mediator != null && mediator.CanNotify("A")
      modifies console
      decreases Rank("A"), 3, 0
      ensures console.history == old(console.history) + OpSteps(Op.DoA)
      ensures console.lines == old(console.lines) + OpLines(Op.DoA)
    {
      console.Record(Invoked(Op.DoA));
      console.WriteLine(AnnouncementTextA);
      mediator.Notify(this, "A", console);
      OpStepsAfter(old(console.history), Op.DoA);
    }

    method DoB(console: Console)
      requires mediator != null && mediator.CanNotify("B")
      modifies console
      decreases Rank("B"), 3, 0
      ensures console.history == old(console.history) + OpSteps(Op.DoB)
      ensures console.lines == old(console.lines) + OpLines(Op.DoB)
    {
      console.Record(Invoked(Op.DoB));
      console.WriteLine(AnnouncementTextB);
      mediator.Notify(this, "B", console);
      OpStepsAfter(old(console.history), Op.DoB);
    }
  }

  /** Component2 offers DoC and DoD; each prints its line and notifies the mediator. */
  class Component2 {
    var mediator: ConcreteMediator?

    /** A new component has no mediator. */
    constructor ()
      ensures mediator == null
    {
      mediator := null;
    }

    /** Replaces the mediator and changes nothing else. */
    method SetMediator(mediator: ConcreteMediator?)
      modifies this
      ensures this.mediator == mediator
    {
      this.mediator := mediator;
    }

    method DoC(console: Console)
      requires mediator != null && mediator.CanNotify("C")
      modifies console
      decreases Rank("C"), 3, 0
      ensures console.history == old(console.history) + OpSteps(Op.DoC)
      ensures console.lines == old(console.lines) + OpLines(Op.DoC)
    {
      console.Record(Invoked(Op.DoC));
      console.WriteLine(AnnouncementTextC);
      mediator.Notify(this, "C", console);
      OpStepsAfter(old(console.history), Op.DoC);
    }

    method DoD(console: Console)
      requires mediator != null && mediator.CanNotify("D")
      modifies console
      decreases Rank("D"), 3, 0
      ensures console.history == old(console.history) + OpSteps(Op.DoD)
      ensures console.lines == old(console.lines) + OpLines(Op.DoD)
    {
      console.Record(Invoked(Op.DoD));
      console.WriteLine(AnnouncementTextD);
      mediator.Notify(this, "D", console);
      OpStepsAfter(old(console.history), Op.DoD);
    }
  }

  /** Setting the same mediator a second time leaves a component exactly as
      the first call left it. */
  method SetMediatorTwice(component: Component1, mediator: ConcreteMediator?)
    modifies component
    ensures component.mediator == mediator
  {
    component.SetMediator(mediator);
    component.SetMediator(mediator);
  }

  /** The client's announcements of the two operations it triggers. */
  const ClientTextA: string := "Client triggers operation A."
  const ClientTextD: string := "Client triggers operation D."

  /** The demonstration: two fresh components, a mediator wiring them, then
      DoA and DoD announced by the client and separated by a blank line.
      Returns everything written to the console, which is exactly the
      transcript recorded beside the program. */
  method RunProgram() returns (transcript: seq<string>)
    ensures transcript ==
      [ClientTextA,
       AnnouncementTextA,
       BannerTextA,
       AnnouncementTextC,
       "",
       ClientTextD,
       AnnouncementTextD,
       BannerTextD,
       AnnouncementTextB,
       AnnouncementTextC]
  {
    var console := new Console();
    var component1 := new Component1();
    var component2 := new Component2();
    var mediator := new ConcreteMediator(component1, component2);
    mediator.WiredCanNotify("A");
    mediator.WiredCanNotify("D");

    console.WriteLine(ClientTextA);
    component1.DoA(console);
    console.WriteLine("");
    console.WriteLine(ClientTextD);
    component2.DoD(console);
    ScenarioA();
    ScenarioD();
    TranscriptConcat(OpLines(Op.DoA), OpLines(Op.DoD), console.lines);
    transcript := console.lines;
  }

  /** Puts the transcript together from the lines of the two scenarios. */
  lemma TranscriptConcat(a: seq<string>, d: seq<string>, lines: seq<string>)
    requires a == [AnnouncementTextA, BannerTextA, AnnouncementTextC]
    requires d == [AnnouncementTextD, BannerTextD, AnnouncementTextB, AnnouncementTextC]
    requires lines == [] + [ClientTextA] + a + [""] + [ClientTextD] + d
    ensures lines ==
      [ClientTextA,
       AnnouncementTextA,
       BannerTextA,
       AnnouncementTextC,
       "",
       ClientTextD,
       AnnouncementTextD,
       BannerTextD,
       AnnouncementTextB,
       AnnouncementTextC]
  {
  }
}
