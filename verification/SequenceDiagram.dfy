/** The sequence diagram of a flow tree (internal/mermaid/sequence.go). */
module SequenceDiagram {
  import opened CodeGraph
  import opened FlowTree
  import opened Ordering
  import Text

  /** A message's end: the actor that starts the flow, or a lane by its title. */
  datatype Who = Actor(name: string) | Lane(title: string)

  /** What is written behind a message's name. */
  datatype Note = Plain | Recursive | AsAbove | Cut

  datatype Line =
    | Header
    | ActorLine(name: string)
    | Autonumber
    | Participant(title: string)
    | Par(title: string)
    | And(title: string)
    | Alt(title: string)
    | Else(title: string)
    | End
    | Message(from: Who, to: Who, node: string, note: Note, calls: nat)

  datatype Diagram = Diagram(lines: seq<Line>, ids: map<string, string>)

  // ---- Titles ----

  function Starter(n: Node): string {
    if n.kind != Entry then "Browser"
    else match Attr(n.attrs, "entryKind")
      case "worker" => "Scheduler"
      case "job" => "Scheduler"
      case "command" => "CLI"
      case "rpc" => "Client"
      case "consumer" => "Broker"
      case _ => "Caller"
  }

  /** The participant a step runs in: its kind of external system, or the last part of its package. */
  function LaneTitle(n: Node): string {
    match n.kind
    case SinkSQL => "Database"
    case SinkFile => "Files"
    case SinkHTTP => "External API"
    case SinkSMTP => "Mail server"
    case SinkExec => "Process"
    case SinkEnv => "Environment"
    case _ =>
      var parts := Text.Split(n.pkg, '/');
      if parts[|parts| - 1] == "" then "external" else parts[|parts| - 1]
  }

  function BranchTitle(branch: string): string { if branch == "each" then "each element" else "branch " + branch }

  function NoteOf(s: Step): Note {
    if s.cycle then Recursive else if s.ref then AsAbove else if s.truncated then Cut else Plain
  }

  function MessageTo(from: Who, s: Step): Line {
    var to := if s.node.kind == Route || s.node.kind == Entry then from else Lane(LaneTitle(s.node));
    Message(from, to, s.node.id, NoteOf(s), s.calls)
  }

  function SinkLine(from: Who, s: Step): Line { Message(from, Lane(LaneTitle(s.node)), s.node.id, Plain, 0) }

  // ---- What is printed, apart from the participants ----

  /** What stands before a child: its group and branch against those of the child before. */
  function Opening(group: string, branch: string, g: string, br: string): seq<Line> {
    if g != group then (if group != "" then [End] else []) + (if g != "" then [Par(BranchTitle(br))] else [])
    else if g != "" && br != branch then [And(BranchTitle(br))]
    else []
  }

  function Closing(group: string): seq<Line> { if group != "" then [End] else [] }

  function WalkLines(s: Step): seq<Line>
    decreases s, 0
  {
    CallLines(s, 0, "", "")
  }

  /** The calls of `s` from the i-th on, when `group` is open at `branch`. */
  function CallLines(s: Step, i: nat, group: string, branch: string): seq<Line>
    requires i <= |s.children|
    decreases s, 0, |s.children| - i
  {
    if i == |s.children| then Closing(group)
    else
      var c := s.children[i];
      Opening(group, branch, Group(c), Branch(c)) + ChildLines(Lane(LaneTitle(s.node)), c) +
      CallLines(s, i + 1, Group(c), Branch(c))
  }

  function ChildLines(from: Who, c: Step): seq<Line>
    decreases c, 2
  {
    if c.node.kind == InterfaceCall then
      if |c.children| == 0 then [MessageTo(from, c)]
      else if |c.children| == 1 then CalledLines(from, c.children[0])
      else Alternatives(from, c, 0)
    else if IsSink(c.node) then [SinkLine(from, c)]
    else CalledLines(from, c)
  }

  function CalledLines(from: Who, c: Step): seq<Line>
    decreases c, 1
  {
    [MessageTo(from, c)] + WalkLines(c)
  }

  function Alternatives(from: Who, c: Step, i: nat): seq<Line>
    requires i <= |c.children|
    decreases c, 1, |c.children| - i
  {
    if i == |c.children| then [End]
    else
      [AlternativeLine(c, i)] + CalledLines(from, c.children[i]) + Alternatives(from, c, i + 1)
  }

  function RootLines(root: Step, i: nat): seq<Line>
    requires i <= |root.children|
  {
    if i == 0 then [Header] + [ActorLine(Starter(root.node))] + [Autonumber]
    else RootLines(root, i - 1) + CalledLines(Actor(Starter(root.node)), root.children[i - 1])
  }

  // ---- The calls of a tree ----

  /** What is called: a function, an external system, or one of several implementations of an interface. */
  datatype Callee = ToFunction | ToSystem | FirstChoice | OtherChoice

  /** A call: who makes it, and the step called. */
  datatype Call = Call(from: Who, step: Step, callee: Callee)

  /**
   * The calls a step stands for when `from` makes it, and those behind them, in preorder. A sink's tables are no calls,
   * and an interface call stands for calls of its implementations when it has any.
   */
  function CallsOf(from: Who, c: Step): seq<Call>
    decreases c, 1
  {
    if c.node.kind == InterfaceCall && c.children != [] then
      CallsMade(from, c.children, if |c.children| > 1 then FirstChoice else ToFunction)
    else if IsSink(c.node) then [Call(from, c, ToSystem)]
    else [Call(from, c, ToFunction)] + CallsBelow(c)
  }

  function CallsBelow(s: Step): seq<Call>
    decreases s, 0
  {
    CallsOfAll(Lane(LaneTitle(s.node)), s.children)
  }

  function CallsOfAll(from: Who, cs: seq<Step>): seq<Call>
    decreases cs, 1
  {
    if cs == [] then [] else CallsOf(from, cs[0]) + CallsOfAll(from, cs[1..])
  }

  /** The functions `cs` are called one after the other. */
  function CallsMade(from: Who, cs: seq<Step>, first: Callee): seq<Call>
    decreases cs, 1
  {
    if cs == [] then []
    else [Call(from, cs[0], first)] + CallsBelow(cs[0]) + CallsMade(from, cs[1..], NextCallee(first))
  }

  function NextCallee(callee: Callee): Callee { if callee == FirstChoice then OtherChoice else callee }

  /** The calls of a whole flow: its starter calls the handlers. */
  function FlowCalls(root: Step): seq<Call> { CallsMade(Actor(Starter(root.node)), root.children, ToFunction) }

  /** A call is drawn from its caller's lane to its own, naming its node; a choice has a heading. */
  function DrawnAs(call: Call): seq<Line> {
    var n := call.step.node;
    var to := if n.kind == Route || n.kind == Entry then call.from else Lane(LaneTitle(n));
    match call.callee
    case ToFunction => [Message(call.from, to, n.id, NoteOf(call.step), call.step.calls)]
    case ToSystem => [Message(call.from, to, n.id, Plain, 0)]
    case FirstChoice => [Alt(n.name), Message(call.from, to, n.id, NoteOf(call.step), call.step.calls)]
    case OtherChoice => [Else(n.name), Message(call.from, to, n.id, NoteOf(call.step), call.step.calls)]
  }

  function Draw(calls: seq<Call>): seq<Line> { if calls == [] then [] else DrawnAs(calls[0]) + Draw(calls[1..]) }

  function IsMessage(): Line -> bool { (l: Line) => l.Message? || l.Alt? || l.Else? }

  /** The messages and the headings of choices. */
  function Messages(lines: seq<Line>): seq<Line> { Filter(lines, IsMessage()) }

  lemma {:induction false} DrawConcat(a: seq<Call>, b: seq<Call>)
    ensures Draw(a + b) == Draw(a) + Draw(b)
  {
    if a == [] {
      assert a + b == b;
    } else {
      assert (a + b)[1..] == a[1..] + b;
      DrawConcat(a[1..], b);
      ConcatAssoc(DrawnAs(a[0]), Draw(a[1..]), Draw(b));
    }
  }

  lemma DrawOne(call: Call)
    ensures Draw([call]) == DrawnAs(call)
  {
    assert [call][1..] == [];
  }

  lemma MessagesConcat(a: seq<Line>, b: seq<Line>)
    ensures Messages(a + b) == Messages(a) + Messages(b)
  {
    FilterAppend(a, b, IsMessage());
  }

  lemma MessagesOfThree(a: seq<Line>, b: seq<Line>, c: seq<Line>)
    ensures Messages(a + b + c) == Messages(a) + Messages(b) + Messages(c)
  {
    MessagesConcat(a + b, c);
    MessagesConcat(a, b);
  }

  lemma MessagesOne(l: Line)
    ensures Messages([l]) == if l.Message? || l.Alt? || l.Else? then [l] else []
  {
    assert [l][1..] == [] && Filter([l][1..], IsMessage()) == [];
  }

  lemma NoMessages(a: Line, b: Line)
    requires !IsMessage()(a) && !IsMessage()(b)
    ensures Messages([a]) == [] && Messages([a] + [b]) == [] && Messages([]) == []
  {
    MessagesOne(a);
    MessagesOne(b);
    MessagesConcat([a], [b]);
  }

  lemma OpeningHasNone(group: string, branch: string, g: string, br: string)
    ensures Messages(Opening(group, branch, g, br)) == [] && Messages(Closing(group)) == []
  {
    var title := BranchTitle(br);
    NoMessages(End, Par(title));
    NoMessages(And(title), End);
    NoMessages(Par(title), End);
    assert [End] + [] == [End] && [] + [Par(title)] == [Par(title)];
  }

  /** The messages printed for a step are its calls. */
  lemma {:induction false} WalkDraws(s: Step)
    ensures Messages(WalkLines(s)) == Draw(CallsBelow(s))
    decreases s, 0
  {
    assert s.children[0..] == s.children;
    CallLinesDraw(s, 0, "", "");
  }

  lemma {:induction false} CallLinesDraw(s: Step, i: nat, group: string, branch: string)
    requires i <= |s.children|
    ensures Messages(CallLines(s, i, group, branch)) == Draw(CallsOfAll(Lane(LaneTitle(s.node)), s.children[i..]))
    decreases s, 0, |s.children| - i
  {
    if i == |s.children| {
      OpeningHasNone(group, branch, "", "");
    } else {
      var c, from, rest := s.children[i], Lane(LaneTitle(s.node)), s.children[i + 1..];
      assert s.children[i..][1..] == rest;
      OpeningHasNone(group, branch, Group(c), Branch(c));
      ChildDraws(from, c);
      CallLinesDraw(s, i + 1, Group(c), Branch(c));
      MessagesOfThree(Opening(group, branch, Group(c), Branch(c)), ChildLines(from, c),
                      CallLines(s, i + 1, Group(c), Branch(c)));
      DrawConcat(CallsOf(from, c), CallsOfAll(from, rest));
      assert [] + Messages(ChildLines(from, c)) == Messages(ChildLines(from, c));
    }
  }

  lemma {:induction false} ChildDraws(from: Who, c: Step)
    ensures Messages(ChildLines(from, c)) == Draw(CallsOf(from, c))
    decreases c, 2
  {
    if c.node.kind == InterfaceCall {
      if |c.children| == 0 {
        MessagesOne(MessageTo(from, c));
        assert CallsBelow(c) == [];
        DrawOne(Call(from, c, ToFunction));
      } else if |c.children| == 1 {
        CalledDraws(from, c.children[0]);
        assert c.children[1..] == [];
        assert CallsMade(from, c.children[1..], ToFunction) == [];
        var made := [Call(from, c.children[0], ToFunction)] + CallsBelow(c.children[0]);
        assert CallsOf(from, c) == made + [] == made;
      } else {
        AlternativesDraw(from, c, 0);
        assert c.children[0..] == c.children;
      }
    } else if IsSink(c.node) {
      MessagesOne(SinkLine(from, c));
      DrawOne(Call(from, c, ToSystem));
    } else {
      CalledDraws(from, c);
    }
  }

  lemma {:induction false} CalledDraws(from: Who, c: Step)
    ensures Messages(CalledLines(from, c)) == [MessageTo(from, c)] + Draw(CallsBelow(c))
    ensures Messages(CalledLines(from, c)) == Draw([Call(from, c, ToFunction)] + CallsBelow(c))
    decreases c, 1
  {
    WalkDraws(c);
    MessagesOne(MessageTo(from, c));
    MessagesConcat([MessageTo(from, c)], WalkLines(c));
    DrawConcat([Call(from, c, ToFunction)], CallsBelow(c));
    DrawOne(Call(from, c, ToFunction));
  }

  /** The choice of `d` is drawn with its heading. */
  lemma ChoiceDraws(from: Who, d: Step, callee: Callee, heading: Line)
    requires callee == FirstChoice || callee == OtherChoice
    requires heading == if callee == FirstChoice then Alt(d.node.name) else Else(d.node.name)
    ensures Draw([Call(from, d, callee)] + CallsBelow(d)) == [heading] + ([MessageTo(from, d)] + Draw(CallsBelow(d)))
  {
    DrawConcat([Call(from, d, callee)], CallsBelow(d));
    DrawOne(Call(from, d, callee));
    ConcatAssoc([heading], [MessageTo(from, d)], Draw(CallsBelow(d)));
    assert [heading] + [MessageTo(from, d)] == DrawnAs(Call(from, d, callee));
  }

  function Choice(i: nat): Callee { if i == 0 then FirstChoice else OtherChoice }

  lemma {:induction false} AlternativesDraw(from: Who, c: Step, i: nat)
    requires i <= |c.children|
    ensures Messages(Alternatives(from, c, i)) == Draw(CallsMade(from, c.children[i..], Choice(i)))
    decreases c, 1, |c.children| - i
  {
    if i == |c.children| {
      MessagesOne(End);
    } else {
      var d, rest := c.children[i], c.children[i + 1..];
      assert c.children[i..][1..] == rest;
      CalledDraws(from, d);
      ChoiceDraws(from, d, Choice(i), AlternativeLine(c, i));
      AlternativesDraw(from, c, i + 1);
      AlternativesStep(from, c, i);
      MessagesOne(AlternativeLine(c, i));
      MessagesOfThree([AlternativeLine(c, i)], CalledLines(from, d), Alternatives(from, c, i + 1));
      DrawConcat([Call(from, d, Choice(i))] + CallsBelow(d), CallsMade(from, rest, Choice(i + 1)));
    }
  }

  lemma {:induction false} CallsMadeAppend(from: Who, cs: seq<Step>, c: Step)
    ensures CallsMade(from, cs + [c], ToFunction) ==
            CallsMade(from, cs, ToFunction) + ([Call(from, c, ToFunction)] + CallsBelow(c))
  {
    if cs == [] {
      assert [] + [c] == [c] && [c][1..] == [];
      assert CallsMade(from, [c][1..], ToFunction) == [];
    } else {
      assert (cs + [c])[1..] == cs[1..] + [c];
      CallsMadeAppend(from, cs[1..], c);
      ConcatAssoc([Call(from, cs[0], ToFunction)] + CallsBelow(cs[0]), CallsMade(from, cs[1..], ToFunction),
                  [Call(from, c, ToFunction)] + CallsBelow(c));
    }
  }

  lemma {:induction false} RootDraws(root: Step, i: nat)
    requires i <= |root.children|
    ensures Messages(RootLines(root, i)) == Draw(CallsMade(Actor(Starter(root.node)), root.children[..i], ToFunction))
  {
    var actor := Actor(Starter(root.node));
    if i == 0 {
      HeadHasNone(ActorLine(Starter(root.node)));
    } else {
      var c := root.children[i - 1];
      RootDraws(root, i - 1);
      assert root.children[..i] == root.children[..i - 1] + [c];
      HandlerDraws(RootLines(root, i - 1), actor, root.children[..i - 1], c);
    }
  }

  lemma HeadHasNone(actor: Line)
    requires actor.ActorLine?
    ensures Messages([Header] + [actor] + [Autonumber]) == []
  {
    MessagesOne(Autonumber);
    NoMessages(Header, actor);
    MessagesConcat([Header] + [actor], [Autonumber]);
  }

  lemma HandlerDraws(before: seq<Line>, actor: Who, cs: seq<Step>, c: Step)
    requires Messages(before) == Draw(CallsMade(actor, cs, ToFunction))
    ensures Messages(before + CalledLines(actor, c)) == Draw(CallsMade(actor, cs + [c], ToFunction))
  {
    CalledDraws(actor, c);
    MessagesConcat(before, CalledLines(actor, c));
    CallsMadeAppend(actor, cs, c);
    DrawConcat(CallsMade(actor, cs, ToFunction), [Call(actor, c, ToFunction)] + CallsBelow(c));
  }

  // ---- Nesting ----

  datatype Block = ParBlock | AltBlock

  datatype Nesting = Open(blocks: seq<Block>) | Broken

  /** One line of the grammar: `and` belongs to an open par, `else` to an open alt, `end` closes the innermost block. */
  function Accept(n: Nesting, l: Line): Nesting {
    if n.Broken? then Broken else
    match l
    case Par(_) => Open(n.blocks + [ParBlock])
    case Alt(_) => Open(n.blocks + [AltBlock])
    case And(_) => if n.blocks != [] && n.blocks[|n.blocks| - 1] == ParBlock then n else Broken
    case Else(_) => if n.blocks != [] && n.blocks[|n.blocks| - 1] == AltBlock then n else Broken
    case End => if n.blocks != [] then Open(n.blocks[..|n.blocks| - 1]) else Broken
    case _ => n
  }

  function Parse(n: Nesting, lines: seq<Line>): Nesting {
    if lines == [] then n else Accept(Parse(n, lines[..|lines| - 1]), lines[|lines| - 1])
  }

  lemma {:induction false} ParseAppend(n: Nesting, a: seq<Line>, b: seq<Line>)
    ensures Parse(n, a + b) == Parse(Parse(n, a), b)
    decreases |b|
  {
    if b == [] {
      assert a + b == a;
    } else {
      var k := |b| - 1;
      assert (a + b)[..|a + b| - 1] == a + b[..k];
      ParseAppend(n, a, b[..k]);
    }
  }

  lemma Parts(n: Nesting, a: seq<Line>, b: seq<Line>, c: seq<Line>, whole: seq<Line>)
    requires whole == a + b + c
    ensures Parse(n, whole) == Parse(Parse(Parse(n, a), b), c)
  {
    ParseAppend(n, a + b, c);
    ParseAppend(n, a, b);
  }

  lemma ParseOne(n: Nesting, l: Line)
    ensures Parse(n, [l]) == Accept(n, l)
  {
    assert [l][..0] == [];
    assert Parse(n, []) == n;
  }

  function Within(blocks: seq<Block>, group: string): Nesting {
    Open(if group != "" then blocks + [ParBlock] else blocks)
  }

  lemma OpeningNests(blocks: seq<Block>, group: string, branch: string, g: string, br: string)
    ensures Parse(Within(blocks, group), Opening(group, branch, g, br)) == Within(blocks, g)
  {
    var n := Within(blocks, group);
    ParseOne(n, End);
    ParseOne(n, And(BranchTitle(br)));
    ParseOne(Open(blocks), Par(BranchTitle(br)));
    assert Parse(n, []) == n;
    assert (blocks + [ParBlock])[..|blocks|] == blocks;
    if g != group {
      ParseAppend(n, if group != "" then [End] else [], if g != "" then [Par(BranchTitle(br))] else []);
    }
  }

  /** What is printed for a step leaves the nesting as it was. */
  lemma {:induction false} WalkNests(blocks: seq<Block>, s: Step)
    ensures Parse(Open(blocks), WalkLines(s)) == Open(blocks)
    decreases s, 0
  {
    CallsNest(blocks, s, 0, "", "");
  }

  lemma {:induction false} CallsNest(blocks: seq<Block>, s: Step, i: nat, group: string, branch: string)
    requires i <= |s.children|
    ensures Parse(Within(blocks, group), CallLines(s, i, group, branch)) == Open(blocks)
    decreases s, 0, |s.children| - i
  {
    if i == |s.children| {
      ParseOne(Within(blocks, group), End);
      assert (blocks + [ParBlock])[..|blocks|] == blocks;
    } else {
      var c := s.children[i];
      var from := Lane(LaneTitle(s.node));
      OpeningNests(blocks, group, branch, Group(c), Branch(c));
      ChildNests(Within(blocks, Group(c)).blocks, from, c);
      CallsNest(blocks, s, i + 1, Group(c), Branch(c));
      Parts(Within(blocks, group), Opening(group, branch, Group(c), Branch(c)), ChildLines(from, c),
            CallLines(s, i + 1, Group(c), Branch(c)),
            CallLines(s, i, group, branch));
    }
  }

  lemma {:induction false} ChildNests(blocks: seq<Block>, from: Who, c: Step)
    ensures Parse(Open(blocks), ChildLines(from, c)) == Open(blocks)
    decreases c, 2
  {
    if c.node.kind == InterfaceCall {
      if |c.children| == 0 {
        ParseOne(Open(blocks), MessageTo(from, c));
      } else if |c.children| == 1 {
        CalledNests(blocks, from, c.children[0]);
      } else {
        AlternativesNest(blocks, from, c, 0);
      }
    } else if IsSink(c.node) {
      ParseOne(Open(blocks), SinkLine(from, c));
    } else {
      CalledNests(blocks, from, c);
    }
  }

  lemma {:induction false} CalledNests(blocks: seq<Block>, from: Who, c: Step)
    ensures Parse(Open(blocks), CalledLines(from, c)) == Open(blocks)
    decreases c, 1
  {
    var first, rest := [MessageTo(from, c)], WalkLines(c);
    assert Parse(Open(blocks), first) == Open(blocks) by { ParseOne(Open(blocks), MessageTo(from, c)); }
    WalkNests(blocks, c);
    Parts(Open(blocks), first, rest, [], CalledLines(from, c));
    assert Parse(Open(blocks), []) == Open(blocks);
  }

  lemma AlternativeOpens(blocks: seq<Block>, start: Nesting, l: Line)
    requires (l.Alt? && start == Open(blocks)) || (l.Else? && start == Open(blocks + [AltBlock]))
    ensures Parse(start, [l]) == Open(blocks + [AltBlock])
  {
    ParseOne(start, l);
  }

  function AlternativeLine(c: Step, i: nat): Line
    requires i < |c.children|
  {
    if i == 0 then Alt(c.children[i].node.name) else Else(c.children[i].node.name)
  }

  lemma AlternativesStep(from: Who, c: Step, i: nat)
    requires i < |c.children|
    ensures Alternatives(from, c, i) ==
            [AlternativeLine(c, i)] + CalledLines(from, c.children[i]) + Alternatives(from, c, i + 1)
  {
  }

  /** The nesting before the i-th alternative. */
  function Inside(blocks: seq<Block>, i: nat): Nesting { Open(if i == 0 then blocks else blocks + [AltBlock]) }

  lemma AlternativeNests(blocks: seq<Block>, i: nat, l: Line, called: seq<Line>, rest: seq<Line>, whole: seq<Line>)
    requires if i == 0 then l.Alt? else l.Else?
    requires whole == [l] + called + rest
    requires Parse(Open(blocks + [AltBlock]), called) == Open(blocks + [AltBlock])
    requires Parse(Inside(blocks, i + 1), rest) == Open(blocks)
    ensures Parse(Inside(blocks, i), whole) == Open(blocks)
  {
    AlternativeOpens(blocks, Inside(blocks, i), l);
    Parts(Inside(blocks, i), [l], called, rest, whole);
  }

  lemma {:induction false} AlternativesNest(blocks: seq<Block>, from: Who, c: Step, i: nat)
    requires i <= |c.children| && c.children != []
    ensures Parse(Inside(blocks, i), Alternatives(from, c, i)) == Open(blocks)
    decreases c, 1, |c.children| - i
  {
    if i == |c.children| {
      assert (blocks + [AltBlock])[..|blocks|] == blocks;
      ParseOne(Inside(blocks, i), End);
    } else {
      CalledNests(blocks + [AltBlock], from, c.children[i]);
      AlternativesNest(blocks, from, c, i + 1);
      AlternativesStep(from, c, i);
      AlternativeNests(blocks, i, AlternativeLine(c, i), CalledLines(from, c.children[i]),
                       Alternatives(from, c, i + 1), Alternatives(from, c, i));
    }
  }

  lemma HeadNests(actor: Line)
    requires actor.ActorLine?
    ensures Parse(Open([]), [Header] + [actor] + [Autonumber]) == Open([])
  {
    ParseOne(Open([]), Header);
    ParseOne(Open([]), actor);
    ParseOne(Open([]), Autonumber);
    Parts(Open([]), [Header], [actor], [Autonumber], [Header] + [actor] + [Autonumber]);
  }

  lemma {:induction false} RootNests(root: Step, i: nat)
    requires i <= |root.children|
    ensures Parse(Open([]), RootLines(root, i)) == Open([])
  {
    if i == 0 {
      HeadNests(ActorLine(Starter(root.node)));
    } else {
      var before, called := RootLines(root, i - 1), CalledLines(Actor(Starter(root.node)), root.children[i - 1]);
      RootNests(root, i - 1);
      CalledNests([], Actor(Starter(root.node)), root.children[i - 1]);
      Parts(Open([]), before, called, [], RootLines(root, i));
      assert Parse(Open([]), []) == Open([]);
    }
  }

  // ---- Participants and numbers ----

  function Drawn(): Line -> bool { (l: Line) => !l.Participant? }

  /** The lines without the participants. */
  function Skeleton(lines: seq<Line>): seq<Line> { Filter(lines, Drawn()) }

  /** Participants do not touch the nesting. */
  lemma {:induction false} SkeletonParses(n: Nesting, lines: seq<Line>)
    ensures Parse(n, Skeleton(lines)) == Parse(n, lines)
  {
    if lines != [] {
      var k := |lines| - 1;
      SkeletonParses(n, lines[..k]);
      assert lines == lines[..k] + [lines[k]];
      SkeletonPush(lines[..k], lines[k]);
      ParseAppend(n, Skeleton(lines[..k]), Skeleton([lines[k]]));
      ParseOne(Parse(n, lines[..k]), lines[k]);
    }
  }

  lemma SkeletonPush(lines: seq<Line>, l: Line)
    ensures Skeleton(lines + [l]) == Skeleton(lines) + if l.Participant? then [] else [l]
    ensures Skeleton([l]) == if l.Participant? then [] else [l]
  {
    FilterAppend(lines, [l], Drawn());
    assert [l][1..] == [];
    assert Filter([l][1..], Drawn()) == [];
  }

  /** The nodes the messages call, in order. */
  function MessageNodes(lines: seq<Line>): seq<string> {
    if lines == [] then []
    else MessageNodes(lines[..|lines| - 1]) + if lines[|lines| - 1].Message? then [lines[|lines| - 1].node] else []
  }

  lemma MessageNodesPush(lines: seq<Line>, l: Line)
    ensures MessageNodes(lines + [l]) == MessageNodes(lines) + if l.Message? then [l.node] else []
  {
    assert (lines + [l])[..|lines|] == lines;
  }

  /** `ids` maps the numbers 1 to n, and nothing else, to the nodes in order. */
  ghost predicate Numbers(ids: map<string, string>, nodes: seq<string>) {
    && (forall k :: k in ids ==> exists i :: 1 <= i <= |nodes| && Text.Itoa(i) == k)
    && (forall i :: 1 <= i <= |nodes| ==> Text.Itoa(i) in ids && ids[Text.Itoa(i)] == nodes[i - 1])
  }

  lemma NumbersPush(ids: map<string, string>, nodes: seq<string>, node: string)
    requires Numbers(ids, nodes)
    ensures Numbers(ids[Text.Itoa(|nodes| + 1) := node], nodes + [node])
  {
    var ids' := ids[Text.Itoa(|nodes| + 1) := node];
    forall i | 1 <= i <= |nodes| + 1 ensures Text.Itoa(i) in ids' && ids'[Text.Itoa(i)] == (nodes + [node])[i - 1] {
      Text.DigitsValueItoa(i);
      Text.DigitsValueItoa(|nodes| + 1);
    }
    forall k | k in ids' ensures exists i :: 1 <= i <= |nodes| + 1 && Text.Itoa(i) == k {
      if k in ids {
        var i :| 1 <= i <= |nodes| && Text.Itoa(i) == k;
      } else {
        assert Text.Itoa(|nodes| + 1) == k;
      }
    }
  }

  predicate Known(before: seq<Line>, who: Who) { who.Lane? ==> Participant(who.title) in before }

  /** A message's lanes have been declared, and a lane is declared once. */
  predicate LineOk(before: seq<Line>, l: Line) {
    match l
    case Message(from, to, _, _, _) => Known(before, from) && Known(before, to)
    case Participant(_) => l !in before
    case _ => true
  }

  ghost predicate DeclaredFirst(lines: seq<Line>) { forall i :: 0 <= i < |lines| ==> LineOk(lines[..i], lines[i]) }

  lemma DeclaredPush(lines: seq<Line>, l: Line)
    requires DeclaredFirst(lines) && LineOk(lines, l)
    ensures DeclaredFirst(lines + [l])
  {
    forall i | 0 <= i < |lines + [l]| ensures LineOk((lines + [l])[..i], (lines + [l])[i]) {
      assert (lines + [l])[..i] == lines[..i];
    }
  }

  /** The printer's fields agree. */
  ghost predicate Agree(d: Diagram, lanes: set<string>, msgs: nat) {
    match d case Diagram(lines, ids) =>
    && DeclaredFirst(lines)
    && (forall t :: t in lanes <==> Participant(t) in lines)
    && msgs == |MessageNodes(lines)|
    && Numbers(ids, MessageNodes(lines))
  }

  lemma PushLine(lines: seq<Line>, lanes: set<string>, ids: map<string, string>, msgs: nat, l: Line)
    requires Agree(Diagram(lines, ids), lanes, msgs) && !l.Participant? && !l.Message?
    ensures Agree(Diagram(lines + [l], ids), lanes, msgs) && Skeleton(lines + [l]) == Skeleton(lines) + [l]
  {
    SkeletonPush(lines, l);
    DeclaredPush(lines, l);
    MessageNodesPush(lines, l);
  }

  lemma PushLane(lines: seq<Line>, lanes: set<string>, ids: map<string, string>, msgs: nat, t: string)
    requires Agree(Diagram(lines, ids), lanes, msgs) && t !in lanes
    ensures Agree(Diagram(lines + [Participant(t)], ids), lanes + {t}, msgs) &&
            Skeleton(lines + [Participant(t)]) == Skeleton(lines)
  {
    SkeletonPush(lines, Participant(t));
    DeclaredPush(lines, Participant(t));
    MessageNodesPush(lines, Participant(t));
  }

  lemma LanesKept(lines: seq<Line>, lanes: set<string>, l: Line)
    requires !l.Participant? && forall t :: t in lanes <==> Participant(t) in lines
    ensures forall t :: t in lanes <==> Participant(t) in lines + [l]
  {
  }

  lemma PushMessage(lines: seq<Line>, lanes: set<string>, ids: map<string, string>, msgs: nat, l: Line)
    requires Agree(Diagram(lines, ids), lanes, msgs) && l.Message?
    requires (l.from.Lane? ==> l.from.title in lanes) && (l.to.Lane? ==> l.to.title in lanes)
    ensures Agree(Diagram(lines + [l], ids[Text.Itoa(msgs + 1) := l.node]), lanes, msgs + 1)
    ensures Skeleton(lines + [l]) == Skeleton(lines) + [l]
  {
    SkeletonPush(lines, l);
    LanesKept(lines, lanes, l);
    DeclaredPush(lines, l);
    MessageNodesPush(lines, l);
    NumbersPush(ids, MessageNodes(lines), l.node);
    assert |MessageNodes(lines) + [l.node]| == msgs + 1;
  }

  // ---- The printer ----

  class Printer {
    var lines: seq<Line>
    var lanes: set<string>
    var ids: map<string, string>
    var msgs: nat
    ghost var drawn: seq<Line> // what the lines draw, the participants aside

    ghost predicate Valid()
      reads this
    {
      Agree(Diagram(lines, ids), lanes, msgs) && drawn == Skeleton(lines)
    }

    predicate Has(who: Who)
      reads this
    {
      who.Lane? ==> who.title in lanes
    }

    /** What a call did: it drew `more`, and declared some participants. */
    twostate predicate Printed(more: seq<Line>)
      reads this
    {
      Valid() && drawn == old(drawn) + more && old(lanes) <= lanes
    }

    constructor ()
      ensures Valid() && drawn == [Header] && lanes == {} && msgs == 0
    {
      lines, lanes, ids, msgs, drawn := [Header], {}, map[], 0, [Header];
      new;
      SkeletonPush([], Header);
      assert [Header][..0] == [] && MessageNodes([]) == [];
      assert MessageNodes([Header]) == MessageNodes([Header][..0]);
    }

    /** `builder.line`, for everything but participants and messages. */
    method Emit(l: Line)
      requires Valid() && !l.Participant? && !l.Message?
      modifies this`lines, this`drawn
      ensures Printed([l])
    {
      PushLine(lines, lanes, ids, msgs, l);
      lines := lines + [l];
      drawn := drawn + [l];
    }

    /** `lane`, which declares a participant the first time. */
    method LaneFor(title: string)
      requires Valid()
      modifies this`lines, this`lanes
      ensures Printed([]) && title in lanes
    {
      assert drawn + [] == drawn;
      if title in lanes { return; }
      PushLane(lines, lanes, ids, msgs, title);
      lanes := lanes + {title};
      lines := lines + [Participant(title)];
    }

    /** `numbered` and the line it numbers. */
    method Numbered(l: Line)
      requires Valid() && l.Message? && Has(l.from) && Has(l.to)
      modifies this`lines, this`ids, this`msgs, this`drawn
      ensures Printed([l])
    {
      PushMessage(lines, lanes, ids, msgs, l);
      msgs := msgs + 1;
      ids := ids[Text.Itoa(msgs) := l.node];
      lines := lines + [l];
      drawn := drawn + [l];
    }

    /** `message`. */
    method SendMessage(from: Who, s: Step)
      requires Valid() && Has(from)
      modifies this
      ensures Printed([MessageTo(from, s)])
    {
      var to := from;
      if s.node.kind != Route && s.node.kind != Entry {
        LaneFor(LaneTitle(s.node));
        to := Lane(LaneTitle(s.node));
      }
      Numbered(Message(from, to, s.node.id, NoteOf(s), s.calls));
    }

    /** `sink`. */
    method Sink(from: Who, s: Step)
      requires Valid() && Has(from)
      modifies this
      ensures Printed([SinkLine(from, s)])
    {
      LaneFor(LaneTitle(s.node));
      Numbered(Message(from, Lane(LaneTitle(s.node)), s.node.id, Plain, 0));
    }

    method PrintHead(actor: string)
      requires Valid() && drawn == [Header]
      modifies this
      ensures Valid() && drawn == [Header] + [ActorLine(actor)] + [Autonumber]
    {
      Emit(ActorLine(actor));
      Emit(Autonumber);
    }

    /** The loop over the handlers of a route. */
    method PrintRoot(root: Step)
      requires Valid() && drawn == [Header]
      modifies this
      ensures Valid() && drawn == RootLines(root, |root.children|)
    {
      PrintHead(Starter(root.node));
      RootHead(root);
      for i := 0 to |root.children|
        invariant Valid() && drawn == RootLines(root, i)
      {
        PrintHandler(root, i);
      }
    }

    method PrintHandler(root: Step, i: nat)
      requires Valid() && i < |root.children| && drawn == RootLines(root, i)
      modifies this
      ensures Valid() && drawn == RootLines(root, i + 1)
    {
      RootStep(root, i);
      Call(Actor(Starter(root.node)), root.children[i]);
    }

    /** A message and the calls behind it. */
    method Call(from: Who, c: Step)
      requires Valid() && Has(from)
      modifies this
      ensures Printed(CalledLines(from, c))
      decreases c, 1
    {
      SendMessage(from, c);
      Walk(c);
      ConcatAssoc(old(drawn), [MessageTo(from, c)], WalkLines(c));
    }

    /** `walk`: the calls a step makes, in order. */
    method Walk(s: Step)
      requires Valid()
      modifies this
      ensures Printed(WalkLines(s))
      decreases s, 0
    {
      LaneFor(LaneTitle(s.node));
      var from := Lane(LaneTitle(s.node));
      var group, branch := "", "";
      ghost var before := drawn;
      for i := 0 to |s.children|
        invariant Valid() && from.title in lanes && old(lanes) <= lanes
        invariant CallsLeft(s, i, group, branch, before, drawn)
      {
        var c := s.children[i];
        NextCall(s, i, group, branch, before, drawn);
        WalkChild(from, c, group, branch);
        group, branch := Group(c), Branch(c);
      }
      LastCall(s, group, branch, before, drawn);
      if group != "" { Emit(End); }
    }

    /** One iteration of the loop in `walk`. */
    method WalkChild(from: Who, c: Step, group: string, branch: string)
      requires Valid() && Has(from)
      modifies this
      ensures Printed(Opening(group, branch, Group(c), Branch(c)) + ChildLines(from, c))
      decreases c, 3
    {
      Open(group, branch, Group(c), Branch(c));
      CallChild(from, c);
      ConcatAssoc(old(drawn), Opening(group, branch, Group(c), Branch(c)), ChildLines(from, c));
    }

    /** The head of the loop in `walk`. */
    method Open(group: string, branch: string, g: string, br: string)
      requires Valid()
      modifies this`lines, this`drawn
      ensures Printed(Opening(group, branch, g, br))
    {
      if g != group {
        if group != "" { Emit(End); }
        if g != "" { Emit(Par(BranchTitle(br))); }
      } else if g != "" && br != branch {
        Emit(And(BranchTitle(br)));
      }
    }

    /** The body of the loop in `walk`. */
    method CallChild(from: Who, c: Step)
      requires Valid() && Has(from)
      modifies this
      ensures Printed(ChildLines(from, c))
      decreases c, 2
    {
      if c.node.kind == InterfaceCall {
        if |c.children| == 0 {
          SendMessage(from, c);
        } else if |c.children| == 1 {
          Call(from, c.children[0]);
        } else {
          CallAlternatives(from, c);
        }
      } else if IsSink(c.node) {
        Sink(from, c);
      } else {
        Call(from, c);
      }
    }

    /** The loop over the implementations of an interface call. */
    method CallAlternatives(from: Who, c: Step)
      requires Valid() && Has(from)
      modifies this
      ensures Printed(Alternatives(from, c, 0))
      decreases c, 1
    {
      ghost var before := drawn;
      for i := 0 to |c.children|
        invariant Valid() && Has(from) && old(lanes) <= lanes
        invariant AlternativesLeft(from, c, i, before, drawn)
      {
        NextAlternative(from, c, i, before, drawn);
        CallAlternative(from, c, i);
      }
      LastAlternative(from, c, before, drawn);
      Emit(End);
    }

    /** One iteration of it. */
    method CallAlternative(from: Who, c: Step, i: nat)
      requires Valid() && Has(from) && i < |c.children|
      modifies this
      ensures Printed([AlternativeLine(c, i)] + CalledLines(from, c.children[i]))
      decreases c, 0
    {
      Emit(AlternativeLine(c, i));
      Call(from, c.children[i]);
      ConcatAssoc(old(drawn), [AlternativeLine(c, i)], CalledLines(from, c.children[i]));
    }
  }

  /** The calls from the i-th on are still to be drawn. */
  ghost predicate CallsLeft(s: Step, i: nat, group: string, branch: string, before: seq<Line>, now: seq<Line>)
    requires i <= |s.children|
  {
    now + CallLines(s, i, group, branch) == before + WalkLines(s)
  }

  lemma NextCall(s: Step, i: nat, group: string, branch: string, before: seq<Line>, now: seq<Line>)
    requires i < |s.children| && CallsLeft(s, i, group, branch, before, now)
    ensures var c := s.children[i];
            var more := Opening(group, branch, Group(c), Branch(c)) + ChildLines(Lane(LaneTitle(s.node)), c);
            CallsLeft(s, i + 1, Group(c), Branch(c), before, now + more)
  {
    var c := s.children[i];
    ConcatAssoc(now, Opening(group, branch, Group(c), Branch(c)) + ChildLines(Lane(LaneTitle(s.node)), c),
                CallLines(s, i + 1, Group(c), Branch(c)));
  }

  lemma LastCall(s: Step, group: string, branch: string, before: seq<Line>, now: seq<Line>)
    requires CallsLeft(s, |s.children|, group, branch, before, now)
    ensures before + WalkLines(s) == if group != "" then now + [End] else now
  {
  }

  /** The alternatives from the i-th on are still to be drawn. */
  ghost predicate AlternativesLeft(from: Who, c: Step, i: nat, before: seq<Line>, now: seq<Line>)
    requires i <= |c.children|
  {
    now + Alternatives(from, c, i) == before + Alternatives(from, c, 0)
  }

  lemma NextAlternative(from: Who, c: Step, i: nat, before: seq<Line>, now: seq<Line>)
    requires i < |c.children| && AlternativesLeft(from, c, i, before, now)
    ensures AlternativesLeft(from, c, i + 1, before, now + ([AlternativeLine(c, i)] + CalledLines(from, c.children[i])))
  {
    AlternativesStep(from, c, i);
    ConcatAssoc(now, [AlternativeLine(c, i)] + CalledLines(from, c.children[i]), Alternatives(from, c, i + 1));
  }

  lemma LastAlternative(from: Who, c: Step, before: seq<Line>, now: seq<Line>)
    requires AlternativesLeft(from, c, |c.children|, before, now)
    ensures before + Alternatives(from, c, 0) == now + [End]
  {
  }

  lemma RootHead(root: Step)
    ensures RootLines(root, 0) == [Header] + [ActorLine(Starter(root.node))] + [Autonumber]
  {
  }

  lemma RootStep(root: Step, i: nat)
    requires i < |root.children|
    ensures RootLines(root, i + 1) == RootLines(root, i) + CalledLines(Actor(Starter(root.node)), root.children[i])
  {
  }

  /** Participants are no messages. */
  lemma {:induction false} SkeletonMessages(lines: seq<Line>)
    ensures Messages(Skeleton(lines)) == Messages(lines)
  {
    FilterFilter(lines, Drawn(), IsMessage(), IsMessage());
  }

  function Called(): Call -> string { (call: Call) => call.step.node.id }

  lemma {:induction false} NodesOfMessages(lines: seq<Line>)
    ensures MessageNodes(lines) == MessageNodes(Messages(lines))
  {
    if lines != [] {
      var k := |lines| - 1;
      NodesOfMessages(lines[..k]);
      assert lines == lines[..k] + [lines[k]];
      MessagesConcat(lines[..k], [lines[k]]);
      MessagesOne(lines[k]);
      MessageNodesPush(Messages(lines[..k]), lines[k]);
      assert Messages(lines[..k]) + [] == Messages(lines[..k]);
    }
  }

  lemma {:induction false} MessageNodesConcat(a: seq<Line>, b: seq<Line>)
    ensures MessageNodes(a + b) == MessageNodes(a) + MessageNodes(b)
    decreases |b|
  {
    if b == [] {
      assert a + b == a;
    } else {
      var k := |b| - 1;
      assert (a + b)[..|a + b| - 1] == a + b[..k];
      MessageNodesConcat(a, b[..k]);
    }
  }

  lemma {:induction false} NodesCalled(calls: seq<Call>)
    ensures MessageNodes(Draw(calls)) == Map(calls, Called())
  {
    if calls != [] {
      NodesCalled(calls[1..]);
      NodeCalled(calls[0], calls[1..]);
      assert calls == [calls[0]] + calls[1..];
    }
  }

  lemma NodeCalled(call: Call, rest: seq<Call>)
    requires MessageNodes(Draw(rest)) == Map(rest, Called())
    ensures MessageNodes(DrawnAs(call) + Draw(rest)) == Map([call] + rest, Called())
  {
    MessageNodesConcat(DrawnAs(call), Draw(rest));
    NodeDrawn(call);
    MapPrepend(call, rest, Called());
  }

  lemma NodeDrawn(call: Call)
    ensures MessageNodes(DrawnAs(call)) == [Called()(call)]
  {
    OneNode(DrawnAs(call), call.step.node.id);
  }

  lemma OneNode(drawn: seq<Line>, node: string)
    requires 1 <= |drawn| <= 2 && drawn[|drawn| - 1].Message? && drawn[|drawn| - 1].node == node
    requires |drawn| == 2 ==> !drawn[0].Message?
    ensures MessageNodes(drawn) == [node]
  {
    var before := drawn[..|drawn| - 1];
    if |drawn| == 2 { assert before[..0] == []; }
    assert MessageNodes([]) == [] && MessageNodes(before) == [];
  }

  /** The messages of a diagram, and the headings of choices, are the calls of its tree, in order. */
  lemma DrawsCalls(root: Step, lines: seq<Line>)
    requires Skeleton(lines) == RootLines(root, |root.children|)
    ensures Messages(lines) == Draw(FlowCalls(root)) && MessageNodes(lines) == Map(FlowCalls(root), Called())
  {
    RootDraws(root, |root.children|);
    SkeletonMessages(lines);
    assert root.children[..|root.children|] == root.children;
    NodesOfMessages(lines);
    NodesCalled(FlowCalls(root));
  }

  lemma Nests(root: Step, lines: seq<Line>)
    requires Skeleton(lines) == RootLines(root, |root.children|)
    ensures Parse(Open([]), lines) == Open([])
  {
    RootNests(root, |root.children|);
    SkeletonParses(Open([]), lines);
  }

  /**
   * `Sequence`: a well-nested diagram whose messages are the calls of the tree, numbered in order, and whose lanes are
   * declared before use.
   */
  method Sequence(root: Step) returns (d: Diagram)
    ensures Skeleton(d.lines) == RootLines(root, |root.children|)
    ensures Parse(Open([]), d.lines) == Open([])
    ensures Messages(d.lines) == Draw(FlowCalls(root))
    ensures Numbers(d.ids, Map(FlowCalls(root), Called()))
    ensures DeclaredFirst(d.lines)
  {
    var p := new Printer();
    p.PrintRoot(root);
    d := Diagram(p.lines, p.ids);
    Nests(root, d.lines);
    DrawsCalls(root, d.lines);
  }
}
