# Mediator pattern: a verified model

`Program.cs` demonstrates the Mediator pattern in C#. Two components,
`Component1` (operations DoA and DoB) and `Component2` (DoC and DoD), each
hold a nullable reference to a mediator. `ConcreteMediator` wires itself into
both components when it is constructed. Each operation prints one line and
then notifies the mediator of its event ("A", "B", "C" or "D"). The mediator
reacts to "A" by printing a banner and running DoC. It reacts to "D" by
printing a banner and running DoB, then DoC. It ignores every other event.
`Main` wires the objects, triggers DoA and DoD, and the expected console
transcript is recorded beside it.

The model has two modules:

- `Dispatch` (`dispatch.dfy`) holds the reference semantics as pure
  functions. `Rules` is the dispatch table and `EventId`, `Announcement` and
  `Banner` give the texts. `OpLines`/`NotifyLines` give the lines an
  operation or a notification prints. `OpSteps`/`NotifySteps` give the whole
  call chain: invocations, printed lines and notifications, in order.
  `Output` projects a chain onto its printed lines. The lemmas prove that
  the two descriptions agree, and they give the exact chains and outputs of
  the two scenarios.
- `Program` (`program.dfy`) holds the imperative model. The classes
  `ConcreteMediator`, `Component1` and `Component2` have the source's fields
  and methods. The console is a `Console` object whose `lines` field every
  write appends to. Its ghost `history` also records each invocation and
  notification. Every operation is proved to append exactly its chain
  (`OpSteps`) to the history and exactly its lines (`OpLines`) to the
  console. `RunProgram` performs `Main`'s sequence and is proved to return
  the recorded transcript.

The calls between `Notify` and the `Do*` methods are mutually recursive.
Their termination measure is `Rank`: an event with a rule ("A", "D") ranks 1
and any other event ranks 0. `FollowUpsAreInert` shows that every
follow-up's event ranks below the event that triggered it.

## Model

| member | source | states |
|---|---|---|
| Program.ConcreteMediator.constructor | Program.cs:52-59 | the mediator stores exactly the two given components, and afterwards both components' mediator is this mediator (`Wired`) |
| Program.ConcreteMediator.WiredCanNotify | Program.cs:52-74 | once wired, the mediator can react to any event: every follow-up operation it dereferences belongs to a component whose mediator is set |
| Program.ConcreteMediator.Notify | Program.cs:61-74 | for any sender, notifying `eventId` appends exactly `NotifySteps(eventId)` to the history and `NotifyLines(eventId)` to the console; only the console changes |
| Program.Component1.constructor | Program.cs:80-85 | a new component has no mediator |
| Program.Component2.constructor | Program.cs:80-85 | a new component has no mediator |
| Program.Component1.SetMediator | Program.cs:87-90 | the component's mediator becomes the argument and nothing else changes |
| Program.Component2.SetMediator | Program.cs:87-90 | the component's mediator becomes the argument and nothing else changes |
| Program.SetMediatorTwice | Program.cs:87-90 | setting the same mediator twice leaves the component as one call does |
| Program.Component1.DoA | Program.cs:96-101 | requires a mediator; appends the chain `OpSteps(DoA)` to the history and `OpLines(DoA)` to the console |
| Program.Component1.DoB | Program.cs:103-108 | requires a mediator; appends `OpSteps(DoB)` and `OpLines(DoB)` |
| Program.Component2.DoC | Program.cs:113-118 | requires a mediator; appends `OpSteps(DoC)` and `OpLines(DoC)` |
| Program.Component2.DoD | Program.cs:120-125 | requires a mediator; appends `OpSteps(DoD)` and `OpLines(DoD)` |
| Program.Console.WriteLine | Program.cs:13-18 | writing a line appends exactly that line to the console |
| Program.RunProgram | Program.cs:8-34 | wiring the components and triggering DoA, a blank line and DoD writes exactly the ten-line recorded transcript |
| Dispatch.FollowUpsAreInert | Program.cs:61-74 | no follow-up operation raises an event with a rule, and each follow-up's event ranks below the triggering event, so every chain stops one level down |
| Dispatch.NotifyNoOpUnlessAOrD | Program.cs:61-74 | a notification prints nothing exactly when the event is neither "A" nor "D"; for such an event the chain is the notification alone, with no further call |
| Dispatch.InertOpSteps | Program.cs:103-118 | an operation whose event has no rule invokes itself, prints its line and notifies, and sets off nothing more |
| Dispatch.NotifyChainA | Program.cs:63-67 | the chain of a notification of "A" is: the banner, then DoC, whose notification of "C" does nothing |
| Dispatch.NotifyChainD | Program.cs:68-73 | the chain of a notification of "D" is: the banner, then DoB, then DoC, whose notifications of "B" and "C" do nothing |
| Dispatch.ChainBounded | Program.cs:61-74 | every chain started by an operation has at most ten steps, and the one started by DoD has exactly ten |
| Dispatch.OpStepsPrintOpLines | Program.cs:96-125 | the lines printed along the chain of an operation are exactly the lines that operation prints |
| Dispatch.NotifyStepsPrintNotifyLines | Program.cs:61-74 | the lines printed along the chain of a notification are exactly the mediator's reaction lines |
| Dispatch.FollowUpStepsPrintFollowUpLines | Program.cs:66-72 | the lines printed along the follow-ups' chains are exactly the follow-ups' lines, in order |
| Dispatch.ReactionA | Program.cs:63-67 | the reaction to "A" prints the A banner and then exactly what DoC prints, which is "Component 2 does C." |
| Dispatch.ReactionD | Program.cs:68-73 | the reaction to "D" prints the D banner, then what DoB prints, then what DoC prints: "Component 1 does B.", then "Component 2 does C." |
| Dispatch.ScenarioA | Program.cs:96-101 | DoA prints "Component 1 does A.", the A banner and "Component 2 does C." |
| Dispatch.ScenarioD | Program.cs:120-125 | DoD prints "Component 2 does D.", the D banner, "Component 1 does B." and "Component 2 does C." |

## Left out

- Console I/O is modelled as appending to the `lines` field of a `Console` object passed to every method. A blank `WriteLine()` is the empty string.
- `IMediator` is not modelled as an interface. The components refer to `ConcreteMediator` directly, so there is no dynamic dispatch.
- `BaseComponent` is not a separate class. Its `mediator` field, constructor and `SetMediator` are repeated in `Component1` and `Component2`.
- Program.ConcreteMediator.constructor: the mediator's two component fields are constants. They are assigned first, and then `SetMediator` is called on each component. The source interleaves the two steps; the final state is the same.
- The `sender` argument of `Notify` is accepted and never inspected, as in the source. Its runtime type and identity are not modelled.
- The null-reference exception that a `Do*` call without a mediator would raise is modelled as a precondition, not as a fault. The precondition asks for a non-null mediator whose follow-up components also have a mediator (`CanNotify`). These are exactly the references the call dereferences.
- `Main` is modelled as `RunProgram`, which returns the console's lines. `Main`'s `args` and the process exit are left out.
- The `BaseComponent` constructor's optional mediator argument is not modelled. Neither component passes one, so a new component always has no mediator.
