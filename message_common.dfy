/** The message common events of Triacontane's MessageCommon: the escape code
    `\CE[n]` in a message starts common event `n`, which then runs in
    parallel with the message, one interpreter step per frame of the message
    window, until it finishes. */
module MessageCommon {
  import opened Wrappers

  // ---------------------------------------------------------------------------
  // Interpreters
  // ---------------------------------------------------------------------------

  /** A `Game_Interpreter` set up with a common event's command list, seen
      only as the number of `update` calls it still needs before
      `isRunning()` turns false. Each is made fresh by
      `addMessageCommonEvents` and held only by the queue. */
  datatype Interpreter = Interpreter(eventId: nat, remaining: nat)
  {
    predicate Running() {
      remaining > 0
    }

    /** `interpreter.update()`: one step; a finished interpreter stays
        finished. */
    function Step(): (r: Interpreter)
      ensures r.eventId == eventId
      ensures r.remaining == if remaining > 0 then remaining - 1 else 0
    {
      Interpreter(eventId, if remaining > 0 then remaining - 1 else 0)
    }
  }

  /** How many `update` calls a freshly set-up interpreter runs for: at least
      one, since every command list ends with an end command. */
  type Steps = n: nat | n > 0 witness 1

  /** `$dataCommonEvents`: for each common event id that exists, how many
      interpreter steps its command list runs for. */
  type CommonEvents = map<nat, Steps>

  /** `new Game_Interpreter()` followed by `setup($dataCommonEvents[id].list)`. */
  function Start(id: nat, commonEvents: CommonEvents): (r: Interpreter)
    requires id in commonEvents
    ensures r.eventId == id && r.remaining == commonEvents[id] && r.Running()
  {
    Interpreter(id, commonEvents[id])
  }

  // ---------------------------------------------------------------------------
  // The queue discipline, on values
  // ---------------------------------------------------------------------------

  /** `forEach(interpreter => interpreter.update())`. */
  function StepAll(q: seq<Interpreter>): (r: seq<Interpreter>)
    ensures |r| == |q|
    ensures forall i :: 0 <= i < |q| ==> r[i] == q[i].Step()
  {
    if q == [] then [] else [q[0].Step()] + StepAll(q[1..])
  }

  /** `filter(interpreter => interpreter.isRunning())`. */
  function Prune(q: seq<Interpreter>): (r: seq<Interpreter>)
    ensures |r| <= |q|
    ensures forall i :: 0 <= i < |r| ==> r[i].Running()
  {
    if q == [] then []
    else (if q[0].Running() then [q[0]] else []) + Prune(q[1..])
  }

  /** One `updateMessageCommonEvents` on a list that is not empty: every
      interpreter is stepped once, then the finished ones are dropped. */
  function Tick(q: seq<Interpreter>): (r: seq<Interpreter>)
    ensures |r| <= |q|
    ensures forall i :: 0 <= i < |r| ==> r[i].Running()
  {
    Prune(StepAll(q))
  }

  /** A tick keeps an interpreter, one step further along, exactly when it
      had more than one step left. */
  lemma TickKeeps(q: seq<Interpreter>, i: nat)
    requires i < |q|
    ensures q[i].Step() in Tick(q) <==> q[i].remaining > 1
  {
    assert StepAll(q)[i] == q[i].Step();
    PruneMembers(StepAll(q), q[i].Step());
  }

  lemma {:induction false} StepAllConcat(a: seq<Interpreter>, b: seq<Interpreter>)
    ensures StepAll(a + b) == StepAll(a) + StepAll(b)
  {
    assert StepAll(a + b) == StepAll(a) + StepAll(b) by {
      forall i | 0 <= i < |a + b|
        ensures StepAll(a + b)[i] == (StepAll(a) + StepAll(b))[i]
      {
        if i < |a| {
          assert (a + b)[i] == a[i];
        } else {
          assert (a + b)[i] == b[i - |a|];
        }
      }
    }
  }

  /** Pruning keeps the running interpreters in their relative order: it
      acts on each part of a list on its own. */
  lemma {:induction false} PruneConcat(a: seq<Interpreter>, b: seq<Interpreter>)
    ensures Prune(a + b) == Prune(a) + Prune(b)
  {
    if a == [] {
      assert a + b == b;
    } else {
      assert (a + b)[0] == a[0] && (a + b)[1..] == a[1..] + b;
      PruneConcat(a[1..], b);
    }
  }

  /** Pruning drops exactly the finished interpreters. */
  lemma {:induction false} PruneMembers(q: seq<Interpreter>, x: Interpreter)
    ensures x in Prune(q) <==> x in q && x.Running()
  {
    if q != [] {
      PruneMembers(q[1..], x);
      assert q == [q[0]] + q[1..];
    }
  }

  /** A list of running interpreters is left as it is by pruning. */
  lemma {:induction false} PruneRunning(q: seq<Interpreter>)
    requires forall i :: 0 <= i < |q| ==> q[i].Running()
    ensures Prune(q) == q
  {
    if q != [] {
      PruneRunning(q[1..]);
    }
  }

  /** Pruning twice is pruning once. */
  lemma PruneIdempotent(q: seq<Interpreter>)
    ensures Prune(Prune(q)) == Prune(q)
  {
    PruneRunning(Prune(q));
  }

  /** Interpreters do not affect each other: a tick on a list is the ticks of
      its parts, one after the other. */
  lemma TickConcat(a: seq<Interpreter>, b: seq<Interpreter>)
    ensures Tick(a + b) == Tick(a) + Tick(b)
  {
    StepAllConcat(a, b);
    PruneConcat(StepAll(a), StepAll(b));
  }

  /** `n` ticks. */
  function Ticks(q: seq<Interpreter>, n: nat): (r: seq<Interpreter>)
    ensures |r| <= |q|
    ensures n > 0 ==> forall i :: 0 <= i < |r| ==> r[i].Running()
    decreases n
  {
    if n == 0 then q else Ticks(Tick(q), n - 1)
  }

  lemma {:induction false} TicksConcat(a: seq<Interpreter>, b: seq<Interpreter>, n: nat)
    ensures Ticks(a + b, n) == Ticks(a, n) + Ticks(b, n)
    decreases n
  {
    if n > 0 {
      TickConcat(a, b);
      assert Ticks(a + b, n) == Ticks(Tick(a) + Tick(b), n - 1);
      TicksConcat(Tick(a), Tick(b), n - 1);
    }
  }

  /** An interpreter that needs `k` steps stays in the list for `k - 1` ticks,
      one step further along after each, and is gone after the `k`-th. */
  lemma {:induction false} Lifetime(c: Interpreter, n: nat)
    requires c.Running()
    ensures n < c.remaining ==> Ticks([c], n) == [Interpreter(c.eventId, c.remaining - n)]
    ensures n >= c.remaining ==> Ticks([c], n) == []
    decreases n
  {
    if n > 0 {
      var t := Tick([c]);
      assert Ticks([c], n) == Ticks(t, n - 1);
      assert StepAll([c]) == [c.Step()];
      assert Prune([c.Step()]) == (if c.Step().Running() then [c.Step()] else []) + Prune([]);
      if c.remaining > 1 {
        assert t == [c.Step()];
        Lifetime(c.Step(), n - 1);
      } else {
        assert t == [];
        EmptyTicks(n - 1);
      }
    }
  }

  lemma {:induction false} EmptyTicks(n: nat)
    ensures Ticks([], n) == []
    decreases n
  {
    if n > 0 {
      EmptyTicks(n - 1);
    }
  }

  /** Every interpreter in a list is finished after as many ticks as the
      longest of them needs. */
  lemma {:induction false} AllFinish(q: seq<Interpreter>, n: nat)
    requires forall i :: 0 <= i < |q| ==> q[i].Running() && q[i].remaining <= n
    ensures Ticks(q, n) == []
    decreases |q|
  {
    if q == [] {
      EmptyTicks(n);
    } else {
      assert q == [q[0]] + q[1..];
      TicksConcat([q[0]], q[1..], n);
      Lifetime(q[0], n);
      AllFinish(q[1..], n);
    }
  }

  /** The `forEach` of `updateMessageCommonEvents`: each interpreter of the
      list is stepped once, in place. */
  method StepEach(q0: seq<Interpreter>) returns (q: seq<Interpreter>)
    ensures q == StepAll(q0)
  {
    q := q0;
    var i := 0;
    while i < |q|
      invariant 0 <= i <= |q| && |q| == |q0|
      invariant forall k :: 0 <= k < i ==> q[k] == q0[k].Step()
      invariant forall k :: i <= k < |q| ==> q[k] == q0[k]
    {
      q := q[i := q[i].Step()];
      i := i + 1;
    }
  }

  /** The `filter` of `updateMessageCommonEvents`: a new list of the
      interpreters still running, in their order. */
  method KeepRunning(q: seq<Interpreter>) returns (kept: seq<Interpreter>)
    ensures kept == Prune(q)
  {
    kept := [];
    var j := 0;
    while j < |q|
      invariant 0 <= j <= |q|
      invariant kept == Prune(q[..j])
    {
      assert q[..j + 1] == q[..j] + [q[j]];
      PruneConcat(q[..j], [q[j]]);
      assert Prune([q[j]]) == (if q[j].Running() then [q[j]] else []) + Prune([]);
      if q[j].Running() {
        kept := kept + [q[j]];
      }
      j := j + 1;
    }
    assert q[..|q|] == q;
  }

  // ---------------------------------------------------------------------------
  // Escape codes
  // ---------------------------------------------------------------------------

  /** An escape code met while the message is drawn, with the number in
      brackets after it as `obtainEscapeParam` reads it (`None` when there is
      none). */
  datatype EscapeCode = EscapeCode(code: string, param: Option<nat>)

  predicate StartsEvent(e: EscapeCode) {
    e.code == "CE"
  }

  /** Every `CE` code of the frame names a common event that exists. */
  predicate CallsValid(codes: seq<EscapeCode>, commonEvents: CommonEvents) {
    forall i :: 0 <= i < |codes| && StartsEvent(codes[i]) ==>
      codes[i].param.Some? && codes[i].param.value in commonEvents
  }

  /** The codes passed on to the window's own handler, in order. */
  function Delegated(codes: seq<EscapeCode>): (r: seq<string>)
    ensures |r| <= |codes|
    ensures forall i :: 0 <= i < |r| ==> r[i] != "CE"
  {
    if codes == [] then []
    else
      var last := codes[|codes| - 1];
      Delegated(codes[..|codes| - 1]) + (if StartsEvent(last) then [] else [last.code])
  }

  /** Passing codes on acts on each part of the frame on its own. */
  lemma {:induction false} DelegatedConcat(a: seq<EscapeCode>, b: seq<EscapeCode>)
    ensures Delegated(a + b) == Delegated(a) + Delegated(b)
    decreases |b|
  {
    if b == [] {
      assert a + b == a;
    } else {
      var b' := b[..|b| - 1];
      assert (a + b)[..|a + b| - 1] == a + b';
      DelegatedConcat(a, b');
    }
  }

  /** Every code other than `CE` is passed on unchanged, right after the
      codes passed on before it. */
  lemma DelegatedInOrder(codes: seq<EscapeCode>, j: nat)
    requires j < |codes| && !StartsEvent(codes[j])
    ensures |Delegated(codes[..j])| < |Delegated(codes)|
    ensures Delegated(codes)[|Delegated(codes[..j])|] == codes[j].code
  {
    assert codes == codes[..j] + [codes[j]] + codes[j + 1..];
    DelegatedConcat(codes[..j] + [codes[j]], codes[j + 1..]);
    DelegatedConcat(codes[..j], [codes[j]]);
    assert Delegated([codes[j]]) == Delegated([]) + [codes[j].code];
  }

  /** Everything passed on is the code of some other escape code. */
  lemma {:induction false} DelegatedFromCodes(codes: seq<EscapeCode>, k: nat)
    requires k < |Delegated(codes)|
    ensures exists j :: 0 <= j < |codes| && !StartsEvent(codes[j]) && |Delegated(codes[..j])| == k
                        && Delegated(codes)[k] == codes[j].code
    decreases |codes|
  {
    var init := codes[..|codes| - 1];
    if k < |Delegated(init)| {
      DelegatedFromCodes(init, k);
      var j :| 0 <= j < |init| && !StartsEvent(init[j]) && |Delegated(init[..j])| == k
               && Delegated(init)[k] == init[j].code;
      assert init[..j] == codes[..j];
    } else {
      assert codes[..|codes| - 1] == init;
    }
  }

  /** The interpreters the `CE` codes of a frame start, in order: one for
      each code that is not passed on. */
  function Calls(codes: seq<EscapeCode>, commonEvents: CommonEvents): (r: seq<Interpreter>)
    requires CallsValid(codes, commonEvents)
    ensures |r| + |Delegated(codes)| == |codes|
    ensures forall i :: 0 <= i < |r| ==> r[i].Running()
    ensures forall i :: 0 <= i < |r| ==> r[i].eventId in commonEvents && r[i] == Start(r[i].eventId, commonEvents)
  {
    if codes == [] then []
    else
      var init, last := codes[..|codes| - 1], codes[|codes| - 1];
      assert forall i :: 0 <= i < |init| ==> init[i] == codes[i];
      Calls(init, commonEvents)
      + (if StartsEvent(last) then [Start(last.param.value, commonEvents)] else [])
  }

  /** One more code of the frame: its call, if any, comes after the calls of
      the codes before it. */
  lemma CallsStep(codes: seq<EscapeCode>, i: nat, commonEvents: CommonEvents)
    requires i < |codes| && CallsValid(codes[..i], commonEvents)
    requires StartsEvent(codes[i]) ==> codes[i].param.Some? && codes[i].param.value in commonEvents
    ensures CallsValid(codes[..i + 1], commonEvents)
    ensures Calls(codes[..i + 1], commonEvents) == Calls(codes[..i], commonEvents)
      + (if StartsEvent(codes[i]) then [Start(codes[i].param.value, commonEvents)] else [])
    ensures Delegated(codes[..i + 1]) == Delegated(codes[..i]) + (if StartsEvent(codes[i]) then [] else [codes[i].code])
  {
    assert codes[..i + 1][..i] == codes[..i];
    assert forall k :: 0 <= k < i ==> codes[..i + 1][k] == codes[..i][k];
  }

  /** The calls of the first `k` codes are the first calls of the frame. */
  lemma {:induction false} CallsPrefix(codes: seq<EscapeCode>, k: nat, commonEvents: CommonEvents)
    requires k <= |codes| && CallsValid(codes, commonEvents)
    ensures CallsValid(codes[..k], commonEvents)
    ensures Calls(codes[..k], commonEvents) <= Calls(codes, commonEvents)
    decreases |codes| - k
  {
    assert forall i :: 0 <= i < k ==> codes[..k][i] == codes[i];
    if k < |codes| {
      var init := codes[..|codes| - 1];
      assert forall i :: 0 <= i < |init| ==> init[i] == codes[i];
      assert init[..k] == codes[..k];
      CallsPrefix(init, k, commonEvents);
    } else {
      assert codes[..k] == codes;
    }
  }

  /** The `CE` code at `j` starts its common event right after the calls of
      the codes before it: the calls are the `CE` codes' events, in the
      order of the codes. */
  lemma CallsInOrder(codes: seq<EscapeCode>, j: nat, commonEvents: CommonEvents)
    requires j < |codes| && CallsValid(codes, commonEvents) && StartsEvent(codes[j])
    ensures CallsValid(codes[..j], commonEvents)
    ensures |Calls(codes[..j], commonEvents)| < |Calls(codes, commonEvents)|
    ensures Calls(codes, commonEvents)[|Calls(codes[..j], commonEvents)|] == Start(codes[j].param.value, commonEvents)
  {
    CallsPrefix(codes, j + 1, commonEvents);
    CallsPrefix(codes, j, commonEvents);
    CallsStep(codes, j, commonEvents);
  }

  /** Every call comes from a `CE` code: the `k`-th call is started by the
      code that has `k` calls before it. */
  lemma {:induction false} CallsFromCodes(codes: seq<EscapeCode>, k: nat, commonEvents: CommonEvents)
    requires CallsValid(codes, commonEvents) && k < |Calls(codes, commonEvents)|
    ensures exists j :: (0 <= j < |codes| && StartsEvent(codes[j])
                         && CallsValid(codes[..j], commonEvents) && |Calls(codes[..j], commonEvents)| == k)
  {
    var init := codes[..|codes| - 1];
    assert forall i :: 0 <= i < |init| ==> init[i] == codes[i];
    if k < |Calls(init, commonEvents)| {
      CallsFromCodes(init, k, commonEvents);
      var j :| 0 <= j < |init| && StartsEvent(init[j])
        && CallsValid(init[..j], commonEvents) && |Calls(init[..j], commonEvents)| == k;
      assert init[..j] == codes[..j];
    } else {
      assert codes[..|codes| - 1] == init;
    }
  }

  /** The frame throws at code `i`: the codes before it are fine and it is a
      `CE` code naming no common event. */
  predicate FailsAt(codes: seq<EscapeCode>, i: int, commonEvents: CommonEvents) {
    && 0 <= i < |codes|
    && CallsValid(codes[..i], commonEvents)
    && StartsEvent(codes[i])
    && !(codes[i].param.Some? && codes[i].param.value in commonEvents)
  }

  /** The first `i` codes of a frame went through: `calls` follow `before`
      in the queue and `delegated` lists the codes passed on. */
  predicate HandledUpTo(codes: seq<EscapeCode>, i: nat, commonEvents: CommonEvents,
                        delegated: seq<string>, before: seq<Interpreter>, after: seq<Interpreter>)
  {
    && i <= |codes|
    && CallsValid(codes[..i], commonEvents)
    && delegated == Delegated(codes[..i])
    && after == before + Calls(codes[..i], commonEvents)
  }

  /** Handling code `i` extends the handled prefix by one code. */
  lemma HandledStep(codes: seq<EscapeCode>, i: nat, commonEvents: CommonEvents,
                    delegated: seq<string>, before: seq<Interpreter>, after: seq<Interpreter>)
    requires HandledUpTo(codes, i, commonEvents, delegated, before, after) && i < |codes|
    requires StartsEvent(codes[i]) ==> codes[i].param.Some? && codes[i].param.value in commonEvents
    ensures HandledUpTo(codes, i + 1, commonEvents,
                        delegated + (if StartsEvent(codes[i]) then [] else [codes[i].code]), before,
                        after + (if StartsEvent(codes[i]) then [Start(codes[i].param.value, commonEvents)] else []))
  {
    CallsStep(codes, i, commonEvents);
  }

  /** A `CE` code naming no common event makes the frame's calls invalid. */
  lemma InvalidCall(codes: seq<EscapeCode>, i: nat, commonEvents: CommonEvents)
    requires i < |codes| && StartsEvent(codes[i])
    requires !(codes[i].param.Some? && codes[i].param.value in commonEvents)
    ensures !CallsValid(codes, commonEvents)
  {
  }

  // ---------------------------------------------------------------------------
  // The queue on `$gameSystem` and the message window
  // ---------------------------------------------------------------------------

  /** `$gameSystem._messageCommonEvents`, which does not exist until the
      first `\CE` code. */
  class MessageCommonQueue {
    var events: Option<seq<Interpreter>>

    /** The interpreters in the list; none while it does not exist. */
    function Contents(): seq<Interpreter>
      reads this
    {
      if events.None? then [] else events.value
    }

    constructor ()
      ensures events == None
    {
      events := None;
    }

    /** `addMessageCommonEvents(id)`: the list is created when missing, then
        one interpreter for common event `id` is appended and the others are
        left as they were. An id that names no common event throws after the
        list has been created. */
    method AddMessageCommonEvents(id: Option<nat>, commonEvents: CommonEvents) returns (ok: bool)
      modifies this
      ensures events.Some?
      ensures ok <==> id.Some? && id.value in commonEvents
      ensures ok ==> Contents() == old(Contents()) + [Start(id.value, commonEvents)]
      ensures !ok ==> Contents() == old(Contents())
    {
      if events.None? {
        events := Some([]);
      }
      if id.None? || id.value !in commonEvents {
        return false;
      }
      events := Some(events.value + [Start(id.value, commonEvents)]);
      return true;
    }

    /** `updateMessageCommonEvents()`: nothing on a missing or empty list;
        otherwise every interpreter is stepped once, and only then the list
        is replaced by the ones still running, in their order. */
    method UpdateMessageCommonEvents()
      modifies this
      ensures old(events).None? || old(events).value == [] ==> events == old(events)
      ensures old(events).Some? && old(events).value != [] ==> events == Some(Tick(old(events).value))
    {
      if events.None? || events.value == [] {
        return;
      }
      var stepped := StepEach(events.value);
      var kept := KeepRunning(stepped);
      events := Some(kept);
    }
  }

  /** `Window_Message`, as far as message common events go. */
  class MessageWindow {
    const system: MessageCommonQueue

    constructor (system: MessageCommonQueue)
      ensures this.system == system
    {
      this.system := system;
    }

    /** `processEscapeCharacter(code, textState)`: `CE` starts the common
        event its parameter names and is not passed on; every other code goes
        to the window's own handler unchanged and leaves the queue alone. */
    method ProcessEscapeCharacter(e: EscapeCode, commonEvents: CommonEvents) returns (delegated: bool, ok: bool)
      modifies system
      ensures delegated <==> !StartsEvent(e)
      ensures delegated ==> ok && system.events == old(system.events)
      ensures !delegated ==> system.events.Some?
      ensures !delegated ==> (ok <==> e.param.Some? && e.param.value in commonEvents)
      ensures !delegated && ok ==> system.Contents() == old(system.Contents()) + [Start(e.param.value, commonEvents)]
      ensures !ok ==> system.Contents() == old(system.Contents())
    {
      if e.code == "CE" {
        ok := system.AddMessageCommonEvents(e.param, commonEvents);
        return false, ok;
      }
      return true, true;
    }

    /** `Window_Message.update()`: the queue is updated first, then the
        window's own update runs, here reduced to handling the escape codes
        it meets in this frame, in order. Interpreters started by this frame
        are therefore not stepped before the next frame. The result lists the
        codes passed on to the window's own handler; a `CE` code naming no
        common event throws. */
    method Update(codes: seq<EscapeCode>, commonEvents: CommonEvents)
      returns (delegated: seq<string>, ok: bool, ghost failedAt: nat)
      modifies system
      ensures ok <==> CallsValid(codes, commonEvents)
      ensures ok ==> delegated == Delegated(codes)
      ensures ok ==> system.Contents() == Tick(old(system.Contents())) + Calls(codes, commonEvents)
      ensures !ok ==> system.events.Some? && FailsAt(codes, failedAt, commonEvents)
      ensures !ok ==> system.Contents() == Tick(old(system.Contents())) + Calls(codes[..failedAt], commonEvents)
    {
      system.UpdateMessageCommonEvents();
      assert system.Contents() == Tick(old(system.Contents())) by {
        if old(system.events).None? || old(system.events).value == [] {
          assert Tick([]) == [];
        }
      }
      delegated, ok, failedAt := ProcessCodes(codes, commonEvents);
    }

    /** The escape codes of one frame, in order, until one throws. */
    method ProcessCodes(codes: seq<EscapeCode>, commonEvents: CommonEvents)
      returns (delegated: seq<string>, ok: bool, ghost failedAt: nat)
      modifies system
      ensures ok <==> CallsValid(codes, commonEvents)
      ensures ok ==> delegated == Delegated(codes)
      ensures ok ==> system.Contents() == old(system.Contents()) + Calls(codes, commonEvents)
      ensures !ok ==> system.events.Some? && FailsAt(codes, failedAt, commonEvents)
      ensures !ok ==> system.Contents() == old(system.Contents()) + Calls(codes[..failedAt], commonEvents)
    {
      delegated := [];
      var i := 0;
      while i < |codes|
        invariant HandledUpTo(codes, i, commonEvents, delegated, old(system.Contents()), system.Contents())
      {
        ghost var mid := system.Contents();
        var passed, fine := ProcessEscapeCharacter(codes[i], commonEvents);
        if !fine {
          InvalidCall(codes, i, commonEvents);
          return delegated, false, i;
        }
        HandledStep(codes, i, commonEvents, delegated, old(system.Contents()), mid);
        if passed {
          delegated := delegated + [codes[i].code];
        }
        i := i + 1;
      }
      assert codes[..|codes|] == codes;
      return delegated, true, 0;
    }
  }
}
