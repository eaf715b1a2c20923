/** Deferred signals: a stack of frames, each holding the signal that arrived in it. */
module InterruptFrames {
  import opened Options

  datatype Frame = Frame(signum: Option<int>, ignore: bool)

  predicate Ignoring(fs: seq<Frame>) {
    exists i :: 0 <= i < |fs| && fs[i].ignore
  }

  predicate Noted(fs: seq<Frame>) {
    exists i :: 0 <= i < |fs| && fs[i].signum.Some?
  }

  /** The handler: the innermost frame notes the signal unless some frame ignores signals. */
  function Handle(fs: seq<Frame>, n: int): seq<Frame>
    requires fs != []
  {
    if Ignoring(fs) then fs else fs[|fs| - 1 := fs[|fs| - 1].(signum := Some(n))]
  }

  function Enter(fs: seq<Frame>): seq<Frame> {
    fs + [Frame(None, false)]
  }

  /** Leaving hands a noted signal to the enclosing frame. */
  function Leave(fs: seq<Frame>): seq<Frame>
    requires fs != []
  {
    var top, rest := fs[|fs| - 1], fs[..|fs| - 1];
    if top.signum.Some? && rest != [] then rest[|rest| - 1 := rest[|rest| - 1].(signum := top.signum)] else rest
  }

  /** Leaving raises when the frame noted a signal. */
  predicate LeaveRaises(fs: seq<Frame>)
    requires fs != []
  {
    fs[|fs| - 1].signum.Some?
  }

  /** The check before each experiment step. */
  predicate CheckRaises(fs: seq<Frame>) {
    !Ignoring(fs) && Noted(fs)
  }

  datatype Event = Signal(n: int) | Open | Close

  /** The stack after events that are well nested above the bottom frame; None when one closes the bottom frame. */
  function After(fs: seq<Frame>, events: seq<Event>): Option<seq<Frame>>
    requires fs != []
    decreases |events|
  {
    if events == [] then Some(fs) else
    match events[0]
    case Signal(n) => After(Handle(fs, n), events[1..])
    case Open => After(Enter(fs), events[1..])
    case Close => if |fs| == 1 then None else After(Leave(fs), events[1..])
  }

  /** Whether some frame raises when it is closed along the way. */
  predicate SomeCloseRaises(fs: seq<Frame>, events: seq<Event>)
    requires fs != []
    decreases |events|
  {
    events != [] &&
    match events[0]
    case Signal(n) => SomeCloseRaises(Handle(fs, n), events[1..])
    case Open => SomeCloseRaises(Enter(fs), events[1..])
    case Close => |fs| > 1 && (LeaveRaises(fs) || SomeCloseRaises(Leave(fs), events[1..]))
  }

  predicate HasSignal(events: seq<Event>) {
    exists i :: 0 <= i < |events| && events[i].Signal?
  }

  predicate Listening(fs: seq<Frame>) {
    forall i :: 0 <= i < |fs| ==> !fs[i].ignore
  }

  lemma HandleNotes(fs: seq<Frame>, n: int)
    requires fs != [] && Listening(fs)
    ensures Listening(Handle(fs, n)) && Noted(Handle(fs, n))
  {
    assert Handle(fs, n)[|fs| - 1].signum.Some?;
  }

  lemma EnterKeeps(fs: seq<Frame>)
    ensures Noted(Enter(fs)) <==> Noted(fs)
    ensures Ignoring(Enter(fs)) <==> Ignoring(fs)
    ensures Listening(Enter(fs)) <==> Listening(fs)
  {
    if i :| 0 <= i < |fs| && fs[i].signum.Some? { assert Enter(fs)[i].signum.Some?; }
    if i :| 0 <= i < |fs| && fs[i].ignore { assert Enter(fs)[i].ignore; }
    if Listening(Enter(fs)) { assert forall i :: 0 <= i < |fs| ==> Enter(fs)[i] == fs[i]; }
  }

  lemma LeaveKeeps(fs: seq<Frame>)
    requires |fs| > 1
    ensures Noted(Leave(fs)) <==> Noted(fs)
    ensures Listening(fs) ==> Listening(Leave(fs))
  {
    var rest := Leave(fs);
    if i :| 0 <= i < |fs| && fs[i].signum.Some? {
      if fs[|fs| - 1].signum.Some? { assert rest[|rest| - 1].signum.Some?; } else { assert rest[i].signum.Some?; }
    }
    if i :| 0 <= i < |rest| && rest[i].signum.Some? {
      assert fs[i].signum.Some? || fs[|fs| - 1].signum.Some?;
    }
  }

  /** While no frame ignores, some frame holds a signal exactly when one was held before or has arrived since. */
  lemma {:induction false} SignalsKept(fs: seq<Frame>, events: seq<Event>)
    requires fs != [] && Listening(fs) && After(fs, events).Some?
    ensures After(fs, events).value != [] && Listening(After(fs, events).value)
    ensures Noted(After(fs, events).value) <==> Noted(fs) || HasSignal(events)
    decreases |events|
  {
    if events != [] {
      var rest := events[1..];
      assert HasSignal(events) <==> events[0].Signal? || HasSignal(rest) by { HasSignalHead(events); }
      match events[0] {
        case Signal(n) => HandleNotes(fs, n); SignalsKept(Handle(fs, n), rest);
        case Open => EnterKeeps(fs); SignalsKept(Enter(fs), rest);
        case Close => LeaveKeeps(fs); SignalsKept(Leave(fs), rest);
      }
    }
  }

  lemma StillHeard(before: seq<Event>, after: seq<Event>)
    requires before <= after && HasSignal(before)
    ensures HasSignal(after)
  {
    var i :| 0 <= i < |before| && before[i].Signal?;
    assert after[i] == before[i];
  }

  lemma HasSignalHead(events: seq<Event>)
    requires events != []
    ensures HasSignal(events) <==> events[0].Signal? || HasSignal(events[1..])
  {
    if i :| 0 <= i < |events| && events[i].Signal? {
      assert i == 0 || events[1..][i - 1].Signal?;
    }
    if i :| 0 <= i < |events[1..]| && events[1..][i].Signal? {
      assert events[i + 1].Signal?;
    }
  }

  /** Back at the bottom frame it holds a signal exactly when one arrived since it was opened. */
  lemma BottomHoldsSignal(events: seq<Event>)
    requires After([Frame(None, false)], events).Some? && |After([Frame(None, false)], events).value| == 1
    ensures After([Frame(None, false)], events).value[0].signum.Some? <==> HasSignal(events)
  {
    var bottom := [Frame(None, false)];
    SignalsKept(bottom, events);
    assert !Noted(bottom);
  }

  predicate Clear(fs: seq<Frame>) {
    fs != [] && fs[0].ignore && !Noted(fs)
  }

  /** Once the bottom frame ignores signals and holds none, nothing raises, however signals and frames interleave. */
  lemma {:induction false} IgnoredNeverRaises(fs: seq<Frame>, events: seq<Event>)
    requires Clear(fs)
    ensures !SomeCloseRaises(fs, events)
    ensures After(fs, events).Some? ==> Clear(After(fs, events).value)
    decreases |events|
  {
    if events != [] {
      assert Ignoring(fs) by { assert fs[0].ignore; }
      match events[0] {
        case Signal(n) => IgnoredNeverRaises(fs, events[1..]);
        case Open => EnterKeeps(fs); IgnoredNeverRaises(Enter(fs), events[1..]);
        case Close =>
          if |fs| > 1 {
            LeaveKeeps(fs);
            IgnoredNeverRaises(Leave(fs), events[1..]);
          }
      }
    }
  }

  /** Events take effect one after another. */
  lemma {:induction false} AfterExtends(fs: seq<Frame>, events: seq<Event>, e: Event)
    requires fs != [] && After(fs, events).Some? && After(fs, events).value != []
    requires e.Close? ==> |After(fs, events).value| > 1
    ensures var now := After(fs, events).value;
      After(fs, events + [e]) ==
        Some(match e case Signal(n) => Handle(now, n) case Open => Enter(now) case Close => Leave(now))
    decreases |events|
  {
    if events == [] {
      assert [e][1..] == [];
    } else {
      assert (events + [e])[1..] == events[1..] + [e];
      match events[0] {
        case Signal(n) => AfterExtends(Handle(fs, n), events[1..], e);
        case Open => AfterExtends(Enter(fs), events[1..], e);
        case Close => AfterExtends(Leave(fs), events[1..], e);
      }
    }
  }
}
