/** Mouse capturing of a widget: once the mouse is pressed on the widget,
    the widget keeps receiving move and up events until the button is
    released, even when the mouse has left it. The widget holds a capture
    flag (unset, 0, 1 or 2) and, while capturing, listens for moves and
    releases on the whole document. The document's listeners see an event
    before the widget's own (they are registered for the capture phase). */
module MouseCapture {
  import opened Wrappers

  /** A browser mouse event reaching the widget or the document. */
  datatype MouseKind = Down | Move | Up | LoseCapture

  /** An event the widget emits. */
  datatype Emit = EmitDown | EmitMove | EmitUp

  /** The capture flag and whether the document listeners are installed. */
  datatype CaptureState = CaptureState(flag: Option<int>, listening: bool)

  /** The flag's JavaScript truth value: unset and 0 are false. */
  predicate Truthy(flag: Option<int>)
  {
    flag.Some? && flag.value != 0
  }

  /** The document listeners are installed exactly while the flag is 2, and
      the flag takes only the values the handlers give it. */
  predicate Valid(s: CaptureState)
  {
    (s.listening <==> s.flag == Some(2))
    && (s.flag.Some? ==> 0 <= s.flag.value <= 2)
  }

  /** The state of a widget that has not been pressed yet. */
  const Initial := CaptureState(None, false)

  /** The emission of a move or up event. */
  function EmitOf(kind: MouseKind): (r: seq<Emit>)
    ensures kind == Move ==> r == [EmitMove]
    ensures kind == Up ==> r == [EmitUp]
    ensures kind != Move && kind != Up ==> r == []
  {
    match kind
    case Move => [EmitMove]
    case Up => [EmitUp]
    case _ => []
  }

  /** The capture handler, on a press on the widget: flag 2 and the
      document listeners installed. */
  function CaptureOn(s: CaptureState): (r: CaptureState)
    ensures Valid(r) && r.flag == Some(2)
  {
    CaptureState(Some(2), true)
  }

  /** The release handler: flag 1 and the document listeners removed. */
  function ReleaseOn(s: CaptureState): (r: CaptureState)
    ensures Valid(r) && r.flag == Some(1) && !r.listening
  {
    CaptureState(Some(1), false)
  }

  /** The widget's handler for moves and releases over it: flag 1 is reset
      to 0 and the event is swallowed; with a false flag the event is
      emitted; with flag 2 the document listener has already emitted it. */
  function Inside(s: CaptureState, kind: MouseKind): (r: (CaptureState, seq<Emit>))
    ensures s.flag == Some(1) ==> r == (s.(flag := Some(0)), [])
    ensures !Truthy(s.flag) ==> r == (s, EmitOf(kind))
    ensures Truthy(s.flag) && s.flag != Some(1) ==> r == (s, [])
  {
    if s.flag == Some(1) then (s.(flag := Some(0)), [])
    else if !Truthy(s.flag) then (s, EmitOf(kind))
    else (s, [])
  }

  /** The document's handler while capturing: a move is emitted; a release
      ends the capture and is emitted. */
  function Outside(s: CaptureState, kind: MouseKind): (r: (CaptureState, seq<Emit>))
    ensures !Truthy(s.flag) ==> r == (s, [])
    ensures Truthy(s.flag) && kind == Up ==> r == (ReleaseOn(s), [EmitUp])
    ensures Truthy(s.flag) && kind != Up ==> r == (s, EmitOf(kind))
  {
    if !Truthy(s.flag) then (s, [])
    else if kind == Up then (ReleaseOn(s), [EmitUp])
    else (s, EmitOf(kind))
  }

  /** One browser event: `over` says whether the mouse is over the widget.
      A press over the widget captures and is emitted; losing the capture
      releases; a move or release goes to the document listener first (when
      installed) and then to the widget's own handler (when over it). */
  function Step(s: CaptureState, kind: MouseKind, over: bool): (r: (CaptureState, seq<Emit>))
  {
    match kind
    case Down => if over then (CaptureOn(s), [EmitDown]) else (s, [])
    case LoseCapture => (ReleaseOn(s), [])
    case _ =>
      var first := if s.listening then Outside(s, kind) else (s, []);
      var second := if over then Inside(first.0, kind) else (first.0, []);
      (second.0, first.1 + second.1)
  }

  /** Every event keeps the state valid. */
  lemma StepValid(s: CaptureState, kind: MouseKind, over: bool)
    requires Valid(s)
    ensures Valid(Step(s, kind, over).0)
  {
  }

  /** No event is emitted twice: each browser event gives at most one
      emission, and only of its own kind. */
  lemma AtMostOneEmission(s: CaptureState, kind: MouseKind, over: bool)
    requires Valid(s)
    ensures |Step(s, kind, over).1| <= 1
    ensures kind != Down ==> Step(s, kind, over).1 == [] || Step(s, kind, over).1 == EmitOf(kind)
    ensures kind == Down ==> Step(s, kind, over).1 == if over then [EmitDown] else []
  {
  }

  /** While the mouse is captured, every move and release is emitted once,
      over the widget or not; a move keeps the capture, a release ends it
      with the flag at 0 when over the widget and at 1 when not. */
  lemma CapturedEmitsOnce(s: CaptureState, kind: MouseKind, over: bool)
    requires Valid(s) && s.flag == Some(2)
    requires kind == Move || kind == Up
    ensures Step(s, kind, over).1 == EmitOf(kind)
    ensures kind == Move ==> Step(s, kind, over).0 == s
    ensures kind == Up ==> Step(s, kind, over).0 == CaptureState(Some(if over then 0 else 1), false)
  {
  }

  /** Without a capture, events away from the widget are not emitted and
      change nothing. */
  lemma UncapturedAwayIgnored(s: CaptureState, kind: MouseKind)
    requires Valid(s) && s.flag != Some(2)
    requires kind == Move || kind == Up || kind == Down
    ensures Step(s, kind, false).0 == s && Step(s, kind, false).1 == []
  {
  }

  /** The states and emissions of a run of events. */
  function Run(s: CaptureState, events: seq<(MouseKind, bool)>): (r: (CaptureState, seq<Emit>))
    decreases |events|
  {
    if events == [] then (s, [])
    else
      var first := Step(s, events[0].0, events[0].1);
      var rest := Run(first.0, events[1..]);
      (rest.0, first.1 + rest.1)
  }

  /** A drag: after a press on the widget, every move is emitted, wherever
      the mouse goes, and the capture holds. */
  lemma {:induction false} DragEmitsEveryMove(s: CaptureState, events: seq<(MouseKind, bool)>)
    requires Valid(s) && s.flag == Some(2)
    requires forall i :: 0 <= i < |events| ==> events[i].0 == Move
    ensures Run(s, events).0 == s
    ensures |Run(s, events).1| == |events|
    ensures forall i :: 0 <= i < |events| ==> Run(s, events).1[i] == EmitMove
  {
    if events != [] {
      CapturedEmitsOnce(s, Move, events[0].1);
      DragEmitsEveryMove(s, events[1..]);
    }
  }

  /** Behaviour as written: flag 1 is there to swallow the widget's own
      copy of a releasing mouseup, which the document listener has already
      emitted. When the button is released away from the widget no such
      copy arrives, the flag stays at 1, and the widget's handler swallows
      the next move over the widget instead. */
  lemma ReleaseAwaySwallowsNextMove()
    ensures Step(CaptureOn(Initial), Up, false).0 == CaptureState(Some(1), false)
    ensures Step(CaptureOn(Initial), Up, false).1 == [EmitUp]
    ensures Step(CaptureState(Some(1), false), Move, true).0 == CaptureState(Some(0), false)
    ensures Step(CaptureState(Some(1), false), Move, true).1 == []
  {
  }

  /** A click on the widget emits the press and the release once each and
      ends with the flag at 0. */
  lemma ClickOnWidget(s: CaptureState)
    requires Valid(s)
    ensures Run(s, [(Down, true), (Up, true)]).0 == CaptureState(Some(0), false)
    ensures Run(s, [(Down, true), (Up, true)]).1 == [EmitDown, EmitUp]
  {
    var events := [(Down, true), (Up, true)];
    var s1 := CaptureOn(s);
    assert Step(s, Down, true).1 == [EmitDown];
    assert Step(s1, Up, true).1 == [EmitUp];
    assert events[1..][1..] == [];
  }

  /** The capture machinery of one widget. */
  class Capturer {
    var flag: Option<int>
    var listening: bool

    function State(): CaptureState
      reads this
    {
      CaptureState(flag, listening)
    }

    constructor ()
      ensures State() == Initial
    {
      flag := None;
      listening := false;
    }

    /** The capture handler. */
    method Capture()
      modifies this
      ensures State() == CaptureOn(old(State()))
    {
      flag := Some(2);
      listening := true;
    }

    /** The release handler. */
    method Release()
      modifies this
      ensures State() == ReleaseOn(old(State()))
    {
      flag := Some(1);
      listening := false;
    }

    /** The widget's handler for moves and releases over it. */
    method MouseInside(kind: MouseKind) returns (emitted: seq<Emit>)
      modifies this
      ensures (State(), emitted) == Inside(old(State()), kind)
    {
      emitted := [];
      if flag == Some(1) {
        flag := Some(0);
      } else if !Truthy(flag) {
        if kind == Move {
          emitted := [EmitMove];
        } else if kind == Up {
          emitted := [EmitUp];
        }
      }
    }

    /** The document's handler for moves and releases while capturing. */
    method MouseOutside(kind: MouseKind) returns (emitted: seq<Emit>)
      modifies this
      ensures (State(), emitted) == Outside(old(State()), kind)
    {
      emitted := [];
      if Truthy(flag) {
        if kind == Move {
          emitted := [EmitMove];
        } else if kind == Up {
          Release();
          emitted := [EmitUp];
        }
      }
    }

    /** The delivery of one browser event to the installed handlers. */
    method Dispatch(kind: MouseKind, over: bool) returns (emitted: seq<Emit>)
      modifies this
      ensures (State(), emitted) == Step(old(State()), kind, over)
    {
      match kind
      case Down =>
        emitted := [];
        if over {
          Capture();
          emitted := [EmitDown];
        }
      case LoseCapture =>
        Release();
        emitted := [];
      case _ =>
        var outside: seq<Emit> := [];
        if listening {
          outside := MouseOutside(kind);
        }
        var inside: seq<Emit> := [];
        if over {
          inside := MouseInside(kind);
        }
        emitted := outside + inside;
    }
  }
}
