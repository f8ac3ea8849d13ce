/** `UrovoScannerService`: the keyboard-wedge accumulator and the paste handler.
    The first half states the behaviour as a function of the input history
    (`Step`, `Run`) and proves what it guarantees; the class `ScannerService`
    then updates its fields in place and is tied to `Run` by `Valid()`. */
module UrovoScannerService {
  import opened Common
  import opened Clipboard

  /** Idle interval, in milliseconds, after which a partly typed buffer is dropped.
      Clocks are not modelled: the expiry arrives as the explicit input `TimerFires`. */
  const ResetTimeoutMs: nat := 100

  /** The fields of a `keydown` event that the handler reads. */
  datatype KeyEvent = KeyEvent(key: string, ctrlKey: bool, altKey: bool, metaKey: bool)

  /** The terminator. It is tested before the modifiers, so ctrl/alt/meta+Enter is still one. */
  predicate IsEnter(e: KeyEvent) { e.key == "Enter" }

  /** The length of `s` as a JavaScript string counts UTF-16 code units: a
      character outside the Basic Multilingual Plane is a surrogate pair, two units. */
  function Utf16Length(s: string): (n: nat)
    ensures |s| <= n <= 2 * |s|
    ensures n == 1 <==> |s| == 1 && s[0] as int <= 0xFFFF
    decreases |s|
  {
    if s == [] then 0 else (if s[0] as int > 0xFFFF then 2 else 1) + Utf16Length(s[1..])
  }

  /** A key whose JavaScript length is one, with none of ctrl, alt, meta held
      (shift is not looked at). The key is then one character of the Basic
      Multilingual Plane; a key such as an emoji has length two and is not appended. */
  predicate IsAppendable(e: KeyEvent)
    ensures IsAppendable(e) ==> |e.key| == 1 && e.key[0] as int <= 0xFFFF && !IsEnter(e)
  {
    Utf16Length(e.key) == 1 && !e.ctrlKey && !e.altKey && !e.metaKey
  }

  /** One event reaching the service: a key press, the expiry of the pending
      reset, or a paste (its two clipboard objects, as in `Clipboard.ClipboardText`). */
  datatype Input =
    | KeyDown(event: KeyEvent)
    | TimerFires
    | Paste(eventData: Option<string>, windowData: Option<string>)

  /** The accumulator: the `buffer` string and whether a reset timeout is pending. */
  datatype Wedge = Wedge(buffer: string, timerArmed: bool)

  /** The accumulator after some inputs, and every string pushed to `scannerInput` so far. */
  datatype Trace = Trace(wedge: Wedge, emitted: seq<string>)

  const Idle := Wedge("", false)

  /** What one input does to the accumulator, and what it emits. */
  function Step(w: Wedge, i: Input): (r: Trace)
    ensures |r.emitted| <= 1
    ensures i.KeyDown? ==> (r.emitted != [] <==> IsEnter(i.event) && w.buffer != "")
    ensures i.KeyDown? && r.emitted != [] ==> r.emitted == [w.buffer] && r.wedge == Idle
    ensures i.Paste? ==> r.wedge == w
  {
    match i
    case KeyDown(e) =>
      if IsEnter(e) then
        if |w.buffer| > 0 then Trace(Idle, [w.buffer]) else Trace(w, [])
      else if IsAppendable(e) then Trace(Wedge(w.buffer + e.key, true), [])
      else Trace(w, [])
    case TimerFires => Trace(Wedge("", false), [])
    case Paste(ev, win) =>
      match ClipboardText(ev, win)
      case Some(text) => Trace(w, [text])
      case None => Trace(w, [])
  }

  /** The service after a history of inputs, from its freshly constructed state. */
  function Run(inputs: seq<Input>): (r: Trace)
    ensures |r.emitted| <= |inputs|
    decreases |inputs|
  {
    if inputs == [] then Trace(Idle, [])
    else
      var t := Run(inputs[..|inputs| - 1]);
      var s := Step(t.wedge, inputs[|inputs| - 1]);
      Trace(s.wedge, t.emitted + s.emitted)
  }

  lemma RunSnoc(inputs: seq<Input>, i: Input)
    ensures Run(inputs + [i]).wedge == Step(Run(inputs).wedge, i).wedge
    ensures Run(inputs + [i]).emitted == Run(inputs).emitted + Step(Run(inputs).wedge, i).emitted
  {
    assert (inputs + [i])[..|inputs|] == inputs;
  }

  /** A reset is pending exactly when the buffer holds something: the two states
      are Idle (empty, no timer) and Accumulating (non-empty, timer armed). */
  lemma {:induction false} ArmedIffBuffered(inputs: seq<Input>)
    ensures Run(inputs).wedge.timerArmed <==> Run(inputs).wedge.buffer != ""
  {
    if inputs != [] {
      ArmedIffBuffered(inputs[..|inputs| - 1]);
    }
  }

  /** An input after which the buffer is empty: Enter, or the reset timeout. */
  predicate IsCut(i: Input) { (i.KeyDown? && IsEnter(i.event)) || i.TimerFires? }

  /** The position just after the last cut in `inputs` (0 when there is none). */
  function LastCut(inputs: seq<Input>): (c: nat)
    ensures c <= |inputs|
    ensures c > 0 ==> IsCut(inputs[c - 1])
    ensures forall j :: c <= j < |inputs| ==> !IsCut(inputs[j])
    decreases |inputs|
  {
    if inputs == [] then 0
    else if IsCut(inputs[|inputs| - 1]) then |inputs|
    else LastCut(inputs[..|inputs| - 1])
  }

  /** What one input contributes to the buffer: its key when it is an appendable key press. */
  function KeyText(i: Input): string
  {
    if i.KeyDown? && IsAppendable(i.event) then i.event.key else ""
  }

  /** The concatenation of the keys of the appendable key presses in `inputs`, in order. */
  function AcceptedKeys(inputs: seq<Input>): string
    decreases |inputs|
  {
    if inputs == [] then "" else AcceptedKeys(inputs[..|inputs| - 1]) + KeyText(inputs[|inputs| - 1])
  }

  lemma AcceptedKeysSnoc(inputs: seq<Input>, i: Input)
    ensures AcceptedKeys(inputs + [i]) == AcceptedKeys(inputs) + KeyText(i)
  {
    assert (inputs + [i])[..|inputs|] == inputs;
  }

  lemma LastCutSnoc(inputs: seq<Input>, i: Input)
    ensures LastCut(inputs + [i]) == if IsCut(i) then |inputs| + 1 else LastCut(inputs)
  {
    assert (inputs + [i])[..|inputs|] == inputs;
  }

  /** One step empties the buffer on a cut and otherwise appends the input's key text. */
  lemma StepBuffer(w: Wedge, i: Input)
    ensures IsCut(i) ==> Step(w, i).wedge.buffer == ""
    ensures !IsCut(i) ==> Step(w, i).wedge.buffer == w.buffer + KeyText(i)
  {
  }

  /** The buffer is always the keys accepted since the last flush or reset. */
  lemma {:induction false} BufferIsKeysSinceLastCut(inputs: seq<Input>)
    ensures Run(inputs).wedge.buffer == AcceptedKeys(inputs[LastCut(inputs)..])
  {
    if inputs != [] {
      var p, x := inputs[..|inputs| - 1], inputs[|inputs| - 1];
      assert inputs == p + [x];
      BufferIsKeysSinceLastCut(p);
      RunSnoc(p, x);
      LastCutSnoc(p, x);
      StepBuffer(Run(p).wedge, x);
      if !IsCut(x) {
        var c := LastCut(p);
        assert inputs[c..] == p[c..] + [x];
        AcceptedKeysSnoc(p[c..], x);
      }
    }
  }

  /** Enter emits the keys accepted since the last cut, when there are any, and
      returns the accumulator to Idle. */
  lemma EnterEmitsKeysSinceLastCut(inputs: seq<Input>, e: KeyEvent)
    requires IsEnter(e)
    ensures var k := AcceptedKeys(inputs[LastCut(inputs)..]);
      && Run(inputs + [KeyDown(e)]).emitted == Run(inputs).emitted + (if k == "" then [] else [k])
      && Run(inputs + [KeyDown(e)]).wedge == Idle
  {
    BufferIsKeysSinceLastCut(inputs);
    ArmedIffBuffered(inputs);
    RunSnoc(inputs, KeyDown(e));
  }

  /** A paste whose clipboard text is the empty string. */
  predicate IsEmptyPaste(i: Input)
  {
    i.Paste? && ClipboardText(i.eventData, i.windowData) == Some("")
  }

  /** Every keyboard emission is non-empty; an empty emission can only come
      from a paste of empty clipboard text, which this service does not filter. */
  lemma {:induction false} EmissionsNonEmpty(inputs: seq<Input>)
    requires forall j :: 0 <= j < |inputs| ==> !IsEmptyPaste(inputs[j])
    ensures forall k :: 0 <= k < |Run(inputs).emitted| ==> Run(inputs).emitted[k] != ""
  {
    if inputs != [] {
      EmissionsNonEmpty(inputs[..|inputs| - 1]);
    }
  }

  function Char(c: char): Input { KeyDown(KeyEvent([c], false, false, false)) }

  const Enter := KeyDown(KeyEvent("Enter", false, false, false))

  /** A plain key of the Basic Multilingual Plane appends itself, arms the reset and emits nothing. */
  lemma CharStep(inputs: seq<Input>, c: char)
    requires IsPlain(c)
    ensures Run(inputs + [Char(c)]) == Trace(Wedge(Run(inputs).wedge.buffer + [c], true), Run(inputs).emitted)
  {
    RunSnoc(inputs, Char(c));
    assert Utf16Length([c]) == 1;
  }

  /** A plain Basic Multilingual Plane character, as a key press with no modifier held. */
  predicate IsPlain(c: char) { c as int <= 0xFFFF }

  /** A fast burst of four plain keys (`7 7 1 2`, say) followed by Enter is one
      scan of those four characters ("7712"). */
  lemma FastBurstCaptured(a: char, b: char, c: char, d: char)
    requires IsPlain(a) && IsPlain(b) && IsPlain(c) && IsPlain(d)
    ensures Run([Char(a), Char(b), Char(c), Char(d), Enter]) == Trace(Idle, [[a, b, c, d]])
  {
    var i1 := [Char(a)];
    var i2 := i1 + [Char(b)];
    var i3 := i2 + [Char(c)];
    var i4 := i3 + [Char(d)];
    CharStep([], a);
    assert [] + [Char(a)] == i1;
    CharStep(i1, b);
    CharStep(i2, c);
    CharStep(i3, d);
    assert Run(i4) == Trace(Wedge([a, b, c, d], true), []);
    RunSnoc(i4, Enter);
    assert [Char(a), Char(b), Char(c), Char(d), Enter] == i4 + [Enter];
  }

  /** Two plain keys (`A`, `B`) with the reset firing after each: nothing is
      emitted and the buffer ends empty. */
  lemma SlowTypingDiscarded(a: char, b: char)
    requires IsPlain(a) && IsPlain(b)
    ensures Run([Char(a), TimerFires, Char(b), TimerFires]) == Trace(Idle, [])
  {
    var i1 := [Char(a)];
    var i2 := i1 + [TimerFires];
    var i3 := i2 + [Char(b)];
    CharStep([], a);
    assert [] + [Char(a)] == i1;
    RunSnoc(i1, TimerFires);
    CharStep(i2, b);
    RunSnoc(i3, TimerFires);
    assert [Char(a), TimerFires, Char(b), TimerFires] == i3 + [TimerFires];
  }

  /** A lone Enter emits nothing. */
  lemma BareEnterIgnored()
    ensures Run([Enter]) == Trace(Idle, [])
  {
  }

  /** Enter with any of ctrl, alt and meta held still flushes. */
  lemma ModifiedEnterFlushes(c: char, ctrl: bool, alt: bool, meta: bool)
    requires IsPlain(c)
    ensures Run([Char(c), KeyDown(KeyEvent("Enter", ctrl, alt, meta))]) == Trace(Idle, [[c]])
  {
    var enter := KeyDown(KeyEvent("Enter", ctrl, alt, meta));
    CharStep([], c);
    assert [] + [Char(c)] == [Char(c)];
    assert Run([Char(c)]) == Trace(Wedge([c], true), []);
    RunSnoc([Char(c)], enter);
    assert [Char(c), enter] == [Char(c)] + [enter];
  }

  /** A paste of empty clipboard text emits the empty string. */
  lemma EmptyPasteEmitted(windowData: Option<string>)
    ensures Run([Paste(Some(""), windowData)]).emitted == [""]
  {
  }

  /** A key outside the Basic Multilingual Plane (an emoji, two UTF-16 code units)
      is not appended, so the Enter after it emits nothing. */
  lemma AstralKeyIgnored(c: char)
    requires !IsPlain(c)
    ensures Run([Char(c), Enter]) == Trace(Idle, [])
  {
    assert Utf16Length([c]) == 2;
    RunSnoc([], Char(c));
    assert [] + [Char(c)] == [Char(c)];
    RunSnoc([Char(c)], Enter);
    assert [Char(c), Enter] == [Char(c)] + [Enter];
  }

  /** The service object. `listening` stands for the two window listeners being
      registered; `history` and `emitted` are the ghost record of what reached the
      handlers and what was pushed to the `scannerInput` subject. */
  class ScannerService {
    const isBrowser: bool
    var listening: bool
    var buffer: string
    var timerArmed: bool
    ghost var emitted: seq<string>
    ghost var history: seq<Input>

    ghost predicate Valid()
      reads this
    {
      && Run(history) == Trace(Wedge(buffer, timerArmed), emitted)
      && (listening ==> isBrowser)
    }

    /** The constructor registers the listeners only on the browser platform. */
    constructor (isBrowser: bool)
      ensures Valid()
      ensures this.isBrowser == isBrowser && listening == isBrowser
      ensures buffer == "" && !timerArmed && emitted == [] && history == []
    {
      this.isBrowser := isBrowser;
      listening := isBrowser;
      buffer := "";
      timerArmed := false;
      emitted := [];
      history := [];
    }

    /** `onKeyDown`. */
    method OnKeyDown(e: KeyEvent)
      requires Valid()
      modifies this
      ensures Valid() && listening == old(listening)
      ensures history == if old(listening) then old(history) + [KeyDown(e)] else old(history)
      ensures !old(listening) || (IsEnter(e) && old(buffer) == "") || (!IsEnter(e) && !IsAppendable(e)) ==>
        buffer == old(buffer) && timerArmed == old(timerArmed) && emitted == old(emitted)
      ensures old(listening) && IsEnter(e) && old(buffer) != "" ==>
        emitted == old(emitted) + [old(buffer)] && buffer == "" && !timerArmed
      ensures old(listening) && !IsEnter(e) && IsAppendable(e) ==>
        buffer == old(buffer) + e.key && timerArmed && emitted == old(emitted)
    {
      if !listening {
        return;
      }
      ghost var next := Step(Wedge(buffer, timerArmed), KeyDown(e));
      RunSnoc(history, KeyDown(e));
      assert Run(history + [KeyDown(e)]) == Trace(next.wedge, emitted + next.emitted);
      history := history + [KeyDown(e)];
      if e.key == "Enter" {
        if |buffer| > 0 {
          emitted := emitted + [buffer];
          buffer := "";
          if timerArmed {
            timerArmed := false;
          }
        }
        return;
      }
      if Utf16Length(e.key) == 1 && !e.ctrlKey && !e.altKey && !e.metaKey {
        buffer := buffer + e.key;
        // the previous reset, if any, is cancelled and exactly one new one is pending
        timerArmed := true;
      }
    }

    /** The pending reset fires: the buffer is dropped and nothing is emitted.
        Destroying the service does not cancel it, so it may fire afterwards. */
    method OnTimerFires()
      requires Valid() && timerArmed
      modifies this
      ensures Valid() && listening == old(listening)
      ensures history == old(history) + [TimerFires]
      ensures buffer == "" && !timerArmed && emitted == old(emitted)
    {
      RunSnoc(history, TimerFires);
      history := history + [TimerFires];
      buffer := "";
      timerArmed := false;
    }

    /** `onEvent`: whenever a clipboard object exists, its text is emitted as it is,
        the empty string included. */
    method OnPaste(eventData: Option<string>, windowData: Option<string>)
      requires Valid()
      modifies this
      ensures Valid() && listening == old(listening)
      ensures buffer == old(buffer) && timerArmed == old(timerArmed)
      ensures history == if old(listening) then old(history) + [Paste(eventData, windowData)] else old(history)
      ensures emitted ==
        if old(listening) && ClipboardText(eventData, windowData).Some?
        then old(emitted) + [ClipboardText(eventData, windowData).value]
        else old(emitted)
    {
      if !listening {
        return;
      }
      RunSnoc(history, Paste(eventData, windowData));
      history := history + [Paste(eventData, windowData)];
      var clipboardData := ClipboardText(eventData, windowData);
      if clipboardData.Some? {
        emitted := emitted + [clipboardData.value];
      }
    }

    /** `ngOnDestroy`: removes the listeners (on the browser platform, the only
        one where they were added). The keyboard state and a pending reset stay. */
    method NgOnDestroy()
      requires Valid()
      modifies this
      ensures Valid() && !listening
      ensures buffer == old(buffer) && timerArmed == old(timerArmed)
      ensures emitted == old(emitted) && history == old(history)
    {
      if isBrowser {
        listening := false;
      }
    }
  }
}
