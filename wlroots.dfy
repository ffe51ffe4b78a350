/** The generic wlroots backend: relative pointer motion through the virtual-pointer
    protocol and key-sequence playback through the virtual-keyboard protocol. The shared
    key-name table is a parameter of the operations that need it. */
module WLRoots {
  import opened BackendTypes
  import opened Environment

  /** One event of a key sequence: a key name, press or release, and the delay in
      milliseconds to wait before it. */
  datatype KeyStroke = KeyStroke(name: string, down: bool, delay: int)

  type KeySequence = seq<KeyStroke>

  /** Why a key sequence could not be played. */
  datatype KeyError =
    | UnknownKey(name: string)       // the name is not in the key table
    | NativeFailure(message: string) // native.simulateKey threw

  /** The translation of every key name of `keys` through `table`, or the first name
      that the table does not know. */
  function KeyCodes(table: map<string, int>, keys: KeySequence): (r: Result<seq<int>, string>)
    ensures r.Success? <==> forall i | 0 <= i < |keys| :: keys[i].name in table
    ensures r.Success? ==> |r.value| == |keys|
    ensures r.Success? ==> forall i | 0 <= i < |keys| :: r.value[i] == table[keys[i].name]
    ensures r.Failure? ==> r.error !in table
    ensures r.Failure? ==>
      exists i | 0 <= i < |keys| :: keys[i].name == r.error && forall j | 0 <= j < i :: keys[j].name in table
  {
    if keys == [] then Success([])
    else if keys[0].name !in table then Failure(keys[0].name)
    else
      match KeyCodes(table, keys[1..])
      case Success(rest) => Success([table[keys[0].name]] + rest)
      case Failure(name) =>
        ghost var i :| 0 <= i < |keys[1..]| && keys[1..][i].name == name
                       && forall j | 0 <= j < i :: keys[1..][j].name in table;
        assert keys[i + 1].name == name && forall j | 0 <= j < i + 1 :: keys[j].name in table;
        Failure(name)
  }

  /** The effects of playing one event whose name translated to `code`: a wait when its
      delay is positive, then the key call. */
  function Step(key: KeyStroke, code: int): seq<Effect>
  {
    (if key.delay > 0 then [Wait(key.delay)] else []) + [Key(code, key.down)]
  }

  /** The effects of playing `keys`, translated to `codes`, from first to last. */
  function Playback(keys: KeySequence, codes: seq<int>): seq<Effect>
    requires |codes| == |keys|
    decreases |keys|
  {
    if keys == [] then []
    else Playback(keys[..|keys| - 1], codes[..|keys| - 1]) + Step(keys[|keys| - 1], codes[|keys| - 1])
  }

  /** The key calls of a trace, in order. */
  function KeyCalls(trace: seq<Effect>): seq<Effect>
    decreases |trace|
  {
    if trace == [] then []
    else KeyCalls(trace[..|trace| - 1]) + (if trace[|trace| - 1].Key? then [trace[|trace| - 1]] else [])
  }

  /** The durations of the waits of a trace, in order. */
  function Waits(trace: seq<Effect>): seq<int>
    decreases |trace|
  {
    if trace == [] then []
    else Waits(trace[..|trace| - 1]) + (if trace[|trace| - 1].Wait? then [trace[|trace| - 1].ms] else [])
  }

  /** The number of events of `keys` with a positive delay. */
  function CountPositive(keys: KeySequence): nat
    decreases |keys|
  {
    if keys == [] then 0
    else CountPositive(keys[..|keys| - 1]) + (if keys[|keys| - 1].delay > 0 then 1 else 0)
  }

  /** The sum of the positive delays of `keys`. */
  function SumPositive(keys: KeySequence): int
    decreases |keys|
  {
    if keys == [] then 0
    else SumPositive(keys[..|keys| - 1]) + (if keys[|keys| - 1].delay > 0 then keys[|keys| - 1].delay else 0)
  }

  function Sum(s: seq<int>): int
    decreases |s|
  {
    if s == [] then 0 else Sum(s[..|s| - 1]) + s[|s| - 1]
  }

  lemma {:induction false} PlaybackAppend(a: KeySequence, ca: seq<int>, b: KeySequence, cb: seq<int>)
    requires |ca| == |a| && |cb| == |b|
    ensures Playback(a + b, ca + cb) == Playback(a, ca) + Playback(b, cb)
    decreases |b|
  {
    if b == [] {
      assert a + b == a && ca + cb == ca;
    } else {
      var n := |b| - 1;
      assert (a + b)[..|a + b| - 1] == a + b[..n];
      assert (ca + cb)[..|a + b| - 1] == ca + cb[..n];
      PlaybackAppend(a, ca, b[..n], cb[..n]);
    }
  }

  lemma {:induction false} KeyCallsAppend(a: seq<Effect>, b: seq<Effect>)
    ensures KeyCalls(a + b) == KeyCalls(a) + KeyCalls(b)
    decreases |b|
  {
    if b == [] {
      assert a + b == a;
    } else {
      assert (a + b)[..|a + b| - 1] == a + b[..|b| - 1];
      KeyCallsAppend(a, b[..|b| - 1]);
    }
  }

  lemma {:induction false} WaitsAppend(a: seq<Effect>, b: seq<Effect>)
    ensures Waits(a + b) == Waits(a) + Waits(b)
    decreases |b|
  {
    if b == [] {
      assert a + b == a;
    } else {
      assert (a + b)[..|a + b| - 1] == a + b[..|b| - 1];
      WaitsAppend(a, b[..|b| - 1]);
    }
  }

  /** Playing a prefix one event longer adds that event's effects at the end. */
  lemma {:induction false} PlaybackSnoc(keys: KeySequence, codes: seq<int>, i: nat)
    requires |codes| == |keys| && i < |keys|
    ensures Playback(keys[..i + 1], codes[..i + 1]) == Playback(keys[..i], codes[..i]) + Step(keys[i], codes[i])
  {
    assert keys[..i + 1][..i] == keys[..i] && codes[..i + 1][..i] == codes[..i];
  }

  lemma {:induction false} StepCalls(key: KeyStroke, code: int)
    ensures KeyCalls(Step(key, code)) == [Key(code, key.down)]
    ensures Waits(Step(key, code)) == if key.delay > 0 then [key.delay] else []
  {
    var last := [Key(code, key.down)];
    assert last[..0] == [];
    if key.delay > 0 {
      var first := [Wait(key.delay)];
      assert first[..0] == [];
      KeyCallsAppend(first, last);
      WaitsAppend(first, last);
    } else {
      assert Step(key, code) == last;
    }
  }

  /** The key calls of a playback grow by the last event's key call. */
  lemma {:induction false} KeyCallsSnoc(keys: KeySequence, codes: seq<int>)
    requires |codes| == |keys| && keys != []
    ensures KeyCalls(Playback(keys, codes)) ==
      KeyCalls(Playback(keys[..|keys| - 1], codes[..|keys| - 1])) + [Key(codes[|keys| - 1], keys[|keys| - 1].down)]
  {
    var n := |keys| - 1;
    KeyCallsAppend(Playback(keys[..n], codes[..n]), Step(keys[n], codes[n]));
    StepCalls(keys[n], codes[n]);
  }

  /** Playback makes exactly one key call per event, in input order, each with the
      event's code and direction. */
  lemma {:induction false} PlaybackKeyCalls(keys: KeySequence, codes: seq<int>)
    requires |codes| == |keys|
    ensures |KeyCalls(Playback(keys, codes))| == |keys|
    ensures forall i | 0 <= i < |keys| :: KeyCalls(Playback(keys, codes))[i] == Key(codes[i], keys[i].down)
    decreases |keys|
  {
    if keys != [] {
      var n := |keys| - 1;
      var front, frontCodes := keys[..n], codes[..n];
      PlaybackKeyCalls(front, frontCodes);
      KeyCallsSnoc(keys, codes);
      var before := KeyCalls(Playback(front, frontCodes));
      var calls := KeyCalls(Playback(keys, codes));
      assert calls == before + [Key(codes[n], keys[n].down)];
      forall i | 0 <= i < |keys|
        ensures calls[i] == Key(codes[i], keys[i].down)
      {
        if i < n {
          assert calls[i] == before[i];
          assert front[i] == keys[i] && frontCodes[i] == codes[i];
        }
      }
    }
  }

  /** The waits of the playback are one per event with a positive delay, and their
      durations add up to the sum of those delays. */
  lemma {:induction false} PlaybackWaits(keys: KeySequence, codes: seq<int>)
    requires |codes| == |keys|
    ensures |Waits(Playback(keys, codes))| == CountPositive(keys)
    ensures Sum(Waits(Playback(keys, codes))) == SumPositive(keys)
    decreases |keys|
  {
    if keys != [] {
      var n := |keys| - 1;
      var front, frontCodes := keys[..n], codes[..n];
      PlaybackWaits(front, frontCodes);
      var before := Waits(Playback(front, frontCodes));
      assert Playback(keys, codes) == Playback(front, frontCodes) + Step(keys[n], codes[n]);
      WaitsAppend(Playback(front, frontCodes), Step(keys[n], codes[n]));
      StepCalls(keys[n], codes[n]);
      if keys[n].delay > 0 {
        assert Waits(Playback(keys, codes)) == before + [keys[n].delay];
        assert (before + [keys[n].delay])[..|before|] == before;
      } else {
        assert Waits(Playback(keys, codes)) == before;
      }
    }
  }

  /** Event i of the sequence contributes, in place, a wait of its own delay exactly when
      that delay is positive, followed by exactly one key call with its code and direction. */
  lemma {:induction false} PlaybackAt(keys: KeySequence, codes: seq<int>, i: nat)
    requires |codes| == |keys| && i < |keys|
    ensures Playback(keys, codes) ==
      Playback(keys[..i], codes[..i])
      + (if keys[i].delay > 0 then [Wait(keys[i].delay)] else [])
      + [Key(codes[i], keys[i].down)]
      + Playback(keys[i + 1..], codes[i + 1..])
  {
    var upTo, upToCodes := keys[..i + 1], codes[..i + 1];
    var after, afterCodes := keys[i + 1..], codes[i + 1..];
    assert upTo + after == keys && upToCodes + afterCodes == codes;
    PlaybackAppend(upTo, upToCodes, after, afterCodes);
    PlaybackSnoc(keys, codes, i);
  }

  /** movePointer: one native call; a failure of that call is caught and turned into the
      error line it logs, so the operation always returns normally. The ghost result is
      what the native call did. */
  method MovePointer(host: Host, dx: int, dy: int) returns (errorLog: Option<string>, ghost native: NativeOutcome)
    modifies host
    ensures host.trace == old(host.trace) + [PointerMotion(dx, dy)]
    ensures host.replies == old(host.replies) + [native]
    ensures errorLog == if native.Threw? then Some("Failed to move mouse pointer: " + native.message) else None
  {
    var outcome := host.MovePointer(dx, dy);
    native := outcome;
    match outcome
    case Returned =>
      errorLog := None;
    case Threw(message) =>
      errorLog := Some("Failed to move mouse pointer: " + message);
  }

  /** Every native call in `outcomes` returned normally. */
  predicate AllReturned(outcomes: seq<NativeOutcome>)
  {
    forall j | 0 <= j < |outcomes| :: outcomes[j].Returned?
  }

  /** A call appended to `outcomes` keeps them all returned exactly when it returned. */
  lemma AllReturnedSnoc(outcomes: seq<NativeOutcome>, outcome: NativeOutcome)
    ensures (outcomes + [outcome])[..|outcomes|] == outcomes
    ensures AllReturned(outcomes + [outcome]) <==> AllReturned(outcomes) && outcome.Returned?
  {
    assert (outcomes + [outcome])[|outcomes|] == outcome;
  }

  /** simulateKeys: translate every name first; only when all are known, play the events
      in order, waiting before those with a positive delay. A throwing native key call
      ends the playback and rejects the call with its message. The ghost result is what
      the native key calls did, one outcome per call made. */
  method SimulateKeys(host: Host, table: map<string, int>, keys: KeySequence)
    returns (r: Outcome<KeyError>, ghost outcomes: seq<NativeOutcome>)
    modifies host
    ensures KeyCodes(table, keys).Failure? ==>
      r == Fail(UnknownKey(KeyCodes(table, keys).error)) && outcomes == [] && host.trace == old(host.trace)
    ensures KeyCodes(table, keys).Success? ==>
      |outcomes| <= |keys| &&
      host.trace == old(host.trace) + Playback(keys[..|outcomes|], KeyCodes(table, keys).value[..|outcomes|])
    ensures outcomes == [] || AllReturned(outcomes[..|outcomes| - 1])
    ensures r.Pass? <==> KeyCodes(table, keys).Success? && |outcomes| == |keys| && AllReturned(outcomes)
    ensures r.Fail? && KeyCodes(table, keys).Success? ==>
      outcomes != [] && outcomes[|outcomes| - 1].Threw?
      && r == Fail(NativeFailure(outcomes[|outcomes| - 1].message))
    ensures keys == [] ==> r == Pass && outcomes == [] && host.trace == old(host.trace)
    ensures host.replies == old(host.replies) + outcomes
  {
    var lookup := KeyCodes(table, keys);
    if lookup.Failure? {
      return Fail(UnknownKey(lookup.error)), [];
    }
    r, outcomes := Play(host, keys, lookup.value);
  }

  /** One iteration of the playback loop: the wait, when the delay is positive, and then
      the native key call, whose outcome is the result. */
  method PlayEvent(host: Host, key: KeyStroke, code: int) returns (outcome: NativeOutcome)
    modifies host
    ensures host.trace == old(host.trace) + Step(key, code)
    ensures host.replies == old(host.replies) + [outcome]
  {
    if key.delay > 0 {
      host.Sleep(key.delay);
    }
    outcome := host.SimulateKey(code, key.down);
  }

  /** The playback loop of simulateKeys over names already translated to `codes`. It
      plays events while the native key calls return; the first one that throws ends it,
      right after that call, with the thrown message. */
  method Play(host: Host, keys: KeySequence, codes: seq<int>)
    returns (r: Outcome<KeyError>, ghost outcomes: seq<NativeOutcome>)
    requires |codes| == |keys|
    modifies host
    ensures |outcomes| <= |keys|
    ensures host.trace == old(host.trace) + Playback(keys[..|outcomes|], codes[..|outcomes|])
    ensures outcomes == [] || AllReturned(outcomes[..|outcomes| - 1])
    ensures r.Pass? <==> |outcomes| == |keys| && AllReturned(outcomes)
    ensures r.Fail? ==>
      outcomes != [] && outcomes[|outcomes| - 1].Threw?
      && r == Fail(NativeFailure(outcomes[|outcomes| - 1].message))
    ensures host.replies == old(host.replies) + outcomes
  {
    outcomes := [];
    ghost var start := host.trace;
    ghost var startReplies := host.replies;
    var i := 0;
    while i < |codes|
      invariant 0 <= i <= |codes| && |outcomes| == i
      invariant AllReturned(outcomes)
      invariant host.trace == start + Playback(keys[..i], codes[..i])
      invariant host.replies == startReplies + outcomes
    {
      var outcome := PlayEvent(host, keys[i], codes[i]);
      PlaybackSnoc(keys, codes, i);
      assert host.trace == start + Playback(keys[..i + 1], codes[..i + 1]);
      assert host.replies == startReplies + (outcomes + [outcome]);
      AllReturnedSnoc(outcomes, outcome);
      outcomes := outcomes + [outcome];
      if outcome.Threw? {
        return Fail(NativeFailure(outcome.message)), outcomes;
      }
      i := i + 1;
    }
    assert keys[..i] == keys && codes[..i] == codes;
    return Pass, outcomes;
  }

  /** restoreFocus: the compositor gives focus back on its own, so nothing happens. */
  method RestoreFocus(host: Host)
    ensures host.trace == old(host.trace)
  {
  }

  /** The four-event sequence over the table {"a": 30, "Enter": 28}. */
  lemma ExamplePlayback()
    ensures
      var table := map["a" := 30, "Enter" := 28];
      var keys := [KeyStroke("a", true, 0), KeyStroke("a", false, 50),
                   KeyStroke("Enter", true, 0), KeyStroke("Enter", false, 10)];
      KeyCodes(table, keys) == Success([30, 30, 28, 28]) &&
      Playback(keys, [30, 30, 28, 28]) ==
        [Key(30, true), Wait(50), Key(30, false), Key(28, true), Wait(10), Key(28, false)]
  {
    var table := map["a" := 30, "Enter" := 28];
    var keys := [KeyStroke("a", true, 0), KeyStroke("a", false, 50),
                 KeyStroke("Enter", true, 0), KeyStroke("Enter", false, 10)];
    var codes := [30, 30, 28, 28];
    var lookup := KeyCodes(table, keys);
    assert lookup.Success? && lookup.value == codes;
    assert keys[..0] == [] && codes[..0] == [];
    PlaybackSnoc(keys, codes, 0);
    PlaybackSnoc(keys, codes, 1);
    PlaybackSnoc(keys, codes, 2);
    PlaybackSnoc(keys, codes, 3);
    assert keys[..4] == keys && codes[..4] == codes;
  }

  /** A sequence naming an unknown key is refused with that key as the reason. */
  lemma ExampleUnknownKey(table: map<string, int>)
    requires "UnknownKey123" !in table
    ensures KeyCodes(table, [KeyStroke("UnknownKey123", true, 0)]) == Failure("UnknownKey123")
  {
  }
}
