/** The Hyprland backend: the generic wlroots backend completed with window and pointer
    queries through `hyprctl` and with shortcut registration through the native
    global-shortcuts module. Pointer motion, key playback and focus restoring are the
    inherited ones of module WLRoots. */
module Hyprland {
  import opened BackendTypes
  import opened Environment

  /** Why `getWMInfo` failed. */
  datatype WMError =
    | ProcessFailed(message: string) // hyprctl could not be launched or exited non-zero
    | MalformedOutput                // hyprctl printed something that is not JSON
    | PropertyOfNull(key: string)    // TypeError: a property of `null` was read

  /** How a JavaScript promise ends up: fulfilled, rejected, or never settled. */
  datatype Settlement<+T> = Resolved(value: T) | Rejected(error: WMError) | Pending

  /** The notice that `init` prints. */
  const InitNotice: string :=
    "\nThe Hyprland backend is still a bit experimental!\n"
    + "You have to perform some manual steps to make Kando work properly.\n"
    + "See https://github.com/kando-menu/kando/blob/main/docs/installing.md#platform-specific-notes\n"
    + "for more information.\n"

  /** init: it cannot fail and calls nothing on the host; its only output is the notice
      (returned here instead of printed). */
  method Init(host: Host) returns (notice: string)
    ensures notice == InitNotice && host.trace == old(host.trace)
  {
    notice := InitNotice;
  }

  /** getBackendInfo: a constant that no other call of the backend influences. */
  function GetBackendInfo(): (info: BackendInfo)
    ensures info.windowType == "splash"
    ensures !info.supportsShortcuts
    ensures info.shortcutHint == "Use your hyprland.conf to bind this."
  {
    BackendInfo("splash", false, "Use your hyprland.conf to bind this.")
  }

  /** The shell command that runs hyprctl subcommand `command` with JSON output. */
  function HyprctlCommand(command: string): (line: string)
    ensures |line| == 11 + |command|
    ensures line[..11] == "hyprctl -j " && line[11..] == command
  {
    "hyprctl -j " + command
  }

  /** The promise of `hyprctl` as written: the parse runs inside the exec callback, outside
      the promise executor, so its exception escapes and the promise is never settled. */
  function SettleAsWritten(outcome: ExecOutcome): (r: Settlement<Json>)
    ensures r.Pending? <==> outcome == ExecOutput(None)
    ensures r.Rejected? <==> outcome.ExecFailed?
  {
    match outcome
    case ExecFailed(message) => Rejected(ProcessFailed(message))
    case ExecOutput(Some(json)) => Resolved(json)
    case ExecOutput(None) => Pending
  }

  /** The promise of `hyprctl` once a parse failure rejects it. It always settles: it
      fulfils with the parsed output exactly when the process succeeded and printed JSON,
      and otherwise rejects with the reason. */
  function Settle(outcome: ExecOutcome): (r: Result<Json, WMError>)
    ensures r.Success? <==> outcome.ExecOutput? && outcome.parsed.Some?
    ensures r.Success? ==> outcome.parsed == Some(r.value)
    ensures outcome.ExecFailed? ==> r == Failure(ProcessFailed(outcome.message))
    ensures outcome == ExecOutput(None) ==> r == Failure(MalformedOutput)
  {
    match outcome
    case ExecFailed(message) => Failure(ProcessFailed(message))
    case ExecOutput(Some(json)) => Success(json)
    case ExecOutput(None) => Failure(MalformedOutput)
  }

  /** Output that is not JSON leaves the written promise pending forever, where the
      corrected one rejects; on every other outcome the two agree. */
  lemma MalformedOutputNeverSettles(outcome: ExecOutcome)
    ensures outcome == ExecOutput(None) ==> SettleAsWritten(outcome).Pending? && Settle(outcome).Failure?
    ensures outcome != ExecOutput(None) ==>
      (SettleAsWritten(outcome).Resolved? <==> Settle(outcome).Success?) &&
      (Settle(outcome).Success? ==> SettleAsWritten(outcome).value == Settle(outcome).value) &&
      (Settle(outcome).Failure? ==> SettleAsWritten(outcome) == Rejected(Settle(outcome).error))
  {
  }

  /** JavaScript truthiness of a property value; None is `undefined`. */
  predicate Truthy(v: Option<Json>)
  {
    match v
    case None => false
    case Some(JNull) => false
    case Some(JBool(b)) => b
    case Some(JNum(n)) => n != 0
    case Some(JStr(s)) => s != ""
    case Some(JArray(_)) => true
    case Some(JObject(_)) => true
  }

  /** `value[key]` for a parsed JSON value: reading a property of `null` throws, an object
      yields its field or `undefined`, and any other value yields `undefined` for the keys
      read here (none of them names a built-in property or an array index). */
  function Property(value: Json, key: string): Result<Option<Json>, WMError>
  {
    match value
    case JNull => Failure(PropertyOfNull(key))
    case JObject(fields) => Success(if key in fields then Some(fields[key]) else None)
    case _ => Success(None)
  }

  /** `v || ''` */
  function OrEmpty(v: Option<Json>): Json
  {
    if Truthy(v) then v.value else JStr("")
  }

  /** The record that `getWMInfo` builds from the two parsed replies, with the
      properties read in the order of the object literal. */
  function Merge(activewindow: Json, cursorpos: Json): (r: Result<WMInfo, WMError>)
    ensures r.Success? <==> activewindow != JNull && cursorpos != JNull
    ensures r.Failure? ==> r.error == PropertyOfNull(if activewindow == JNull then "initialTitle" else "x")
    ensures r.Success? ==> Truthy(Some(r.value.windowName)) || r.value.windowName == JStr("")
    ensures r.Success? ==> Truthy(Some(r.value.appName)) || r.value.appName == JStr("")
    ensures r.Success? ==>
      var title := Property(activewindow, "initialTitle").value;
      (Truthy(title) ==> Some(r.value.windowName) == title) && (!Truthy(title) ==> r.value.windowName == JStr(""))
    ensures r.Success? ==>
      var appClass := Property(activewindow, "initialClass").value;
      (Truthy(appClass) ==> Some(r.value.appName) == appClass) && (!Truthy(appClass) ==> r.value.appName == JStr(""))
    ensures r.Success? ==>
      r.value.pointerX == Property(cursorpos, "x").value && r.value.pointerY == Property(cursorpos, "y").value
  {
    match Property(activewindow, "initialTitle")
    case Failure(e) => Failure(e)
    case Success(title) =>
      match Property(activewindow, "initialClass")
      case Failure(e) => Failure(e)
      case Success(appClass) =>
        match Property(cursorpos, "x")
        case Failure(e) => Failure(e)
        case Success(x) =>
          match Property(cursorpos, "y")
          case Failure(e) => Failure(e)
          case Success(y) => Success(WMInfo(OrEmpty(title), OrEmpty(appClass), x, y))
  }

  /** The string fields `initialTitle` and `initialClass` of the focused window become
      the window and application names as they are, and a missing one becomes the empty
      string. */
  lemma MergeStringFields(fields: map<string, Json>, cursorpos: Json, title: string, appClass: string)
    requires cursorpos != JNull
    requires "initialTitle" in fields ==> fields["initialTitle"] == JStr(title)
    requires "initialTitle" !in fields ==> title == ""
    requires "initialClass" in fields ==> fields["initialClass"] == JStr(appClass)
    requires "initialClass" !in fields ==> appClass == ""
    ensures Merge(JObject(fields), cursorpos).Success?
    ensures Merge(JObject(fields), cursorpos).value.windowName == JStr(title)
    ensures Merge(JObject(fields), cursorpos).value.appName == JStr(appClass)
  {
  }

  /** `Promise.all` over two promises that both settle: it fulfils with both values when
      both fulfil, and otherwise rejects with the first rejection to occur, which is the
      one of the promise that settles first when both reject. */
  function Join<A, B>(a: Result<A, WMError>, b: Result<B, WMError>, aSettlesFirst: bool): (r: Result<(A, B), WMError>)
    ensures r.Success? <==> a.Success? && b.Success?
    ensures r.Success? ==> r.value == (a.value, b.value)
    ensures r.Failure? ==> (a.Failure? && r.error == a.error) || (b.Failure? && r.error == b.error)
    ensures a.Failure? && b.Success? ==> r == Failure(a.error)
    ensures a.Success? && b.Failure? ==> r == Failure(b.error)
  {
    match (a, b)
    case (Success(x), Success(y)) => Success((x, y))
    case (Failure(e), Success(_)) => Failure(e)
    case (Success(_), Failure(e)) => Failure(e)
    case (Failure(e1), Failure(e2)) => Failure(if aSettlesFirst then e1 else e2)
  }

  /** The value of `getWMInfo` given how the two queries settled. */
  function WMInfoOf(activewindow: Result<Json, WMError>, cursorpos: Result<Json, WMError>, activeFirst: bool): (r: Result<WMInfo, WMError>)
    ensures r.Success? <==>
      activewindow.Success? && cursorpos.Success? && activewindow.value != JNull && cursorpos.value != JNull
    ensures activewindow.Success? && cursorpos.Success? ==> r == Merge(activewindow.value, cursorpos.value)
    ensures activewindow.Failure? && cursorpos.Success? ==> r == Failure(activewindow.error)
    ensures activewindow.Success? && cursorpos.Failure? ==> r == Failure(cursorpos.error)
    ensures activewindow.Failure? && cursorpos.Failure? ==>
      r == Failure(if activeFirst then activewindow.error else cursorpos.error)
  {
    match Join(activewindow, cursorpos, activeFirst)
    case Failure(e) => Failure(e)
    case Success((aw, cp)) => Merge(aw, cp)
  }

  /** Which query settles first matters only for which error is reported when both fail:
      success, the merged record and a single failure are the same in either order. */
  lemma WMInfoOrderIrrelevant(activewindow: Result<Json, WMError>, cursorpos: Result<Json, WMError>)
    ensures WMInfoOf(activewindow, cursorpos, true).Success? == WMInfoOf(activewindow, cursorpos, false).Success?
    ensures activewindow.Success? || cursorpos.Success? ==>
      WMInfoOf(activewindow, cursorpos, true) == WMInfoOf(activewindow, cursorpos, false)
  {
  }

  /** The replies {"initialTitle": "Terminal", "initialClass": "kitty"} and
      {"x": 120, "y": 340}. */
  lemma ExampleWMInfo(activeFirst: bool)
    ensures
      var aw := JObject(map["initialTitle" := JStr("Terminal"), "initialClass" := JStr("kitty")]);
      var cp := JObject(map["x" := JNum(120), "y" := JNum(340)]);
      WMInfoOf(Success(aw), Success(cp), activeFirst)
        == Success(WMInfo(JStr("Terminal"), JStr("kitty"), Some(JNum(120)), Some(JNum(340))))
  {
  }

  /** A promise that has settled with `r`. */
  function AsSettlement<T>(r: Result<T, WMError>): Settlement<T>
  {
    match r
    case Success(v) => Resolved(v)
    case Failure(e) => Rejected(e)
  }

  /** `Promise.all` over two promises that may never settle: it rejects as soon as one of
      them rejects, fulfils once both have fulfilled, and otherwise stays pending. */
  function JoinAsWritten<A, B>(a: Settlement<A>, b: Settlement<B>, aSettlesFirst: bool): (r: Settlement<(A, B)>)
    ensures r.Resolved? <==> a.Resolved? && b.Resolved?
    ensures r.Resolved? ==> r.value == (a.value, b.value)
    ensures r.Pending? <==> (a.Pending? || b.Pending?) && !a.Rejected? && !b.Rejected?
    ensures r.Rejected? ==> (a.Rejected? && r.error == a.error) || (b.Rejected? && r.error == b.error)
  {
    match (a, b)
    case (Resolved(x), Resolved(y)) => Resolved((x, y))
    case (Rejected(e1), Rejected(e2)) => Rejected(if aSettlesFirst then e1 else e2)
    case (Rejected(e), _) => Rejected(e)
    case (_, Rejected(e)) => Rejected(e)
    case _ => Pending
  }

  /** On promises that both settle, `JoinAsWritten` is `Join`. */
  lemma JoinAgrees<A, B>(a: Result<A, WMError>, b: Result<B, WMError>, aSettlesFirst: bool)
    ensures JoinAsWritten(AsSettlement(a), AsSettlement(b), aSettlesFirst) == AsSettlement(Join(a, b, aSettlesFirst))
  {
  }

  /** How the promise of `getWMInfo` settles as written, given how the two processes
      ended: it stays pending exactly when one of the replies is not JSON and neither
      process failed. */
  function WMInfoAsWritten(windowReply: ExecOutcome, cursorReply: ExecOutcome, activeFirst: bool): (r: Settlement<WMInfo>)
    ensures r.Pending? <==>
      (windowReply == ExecOutput(None) || cursorReply == ExecOutput(None))
      && !windowReply.ExecFailed? && !cursorReply.ExecFailed?
  {
    match JoinAsWritten(SettleAsWritten(windowReply), SettleAsWritten(cursorReply), activeFirst)
    case Pending => Pending
    case Rejected(e) => Rejected(e)
    case Resolved((aw, cp)) => AsSettlement(Merge(aw, cp))
  }

  /** Unless one of the replies is not JSON, `getWMInfo` as written settles as the
      corrected model says. */
  lemma WMInfoAsWrittenAgrees(windowReply: ExecOutcome, cursorReply: ExecOutcome, activeFirst: bool)
    requires windowReply != ExecOutput(None) && cursorReply != ExecOutput(None)
    ensures WMInfoAsWritten(windowReply, cursorReply, activeFirst)
      == AsSettlement(WMInfoOf(Settle(windowReply), Settle(cursorReply), activeFirst))
  {
    MalformedOutputNeverSettles(windowReply);
    MalformedOutputNeverSettles(cursorReply);
  }

  /** A window query that prints text that is not JSON, while the pointer query succeeds:
      as written `getWMInfo` never settles, where the corrected model rejects it with
      `MalformedOutput`. */
  lemma GetWMInfoHangs(activeFirst: bool)
    ensures
      var windowReply := ExecOutput(None);
      var cursorReply := ExecOutput(Some(JObject(map["x" := JNum(120), "y" := JNum(340)])));
      WMInfoAsWritten(windowReply, cursorReply, activeFirst).Pending?
      && WMInfoOf(Settle(windowReply), Settle(cursorReply), activeFirst) == Failure(MalformedOutput)
  {
  }

  /** hyprctl: one process launch with the JSON flag, settled as `Settle` says; `outcome`
      is how the process ended. */
  method Hyprctl(host: Host, command: string) returns (r: Result<Json, WMError>, ghost outcome: ExecOutcome)
    modifies host
    ensures host.trace == old(host.trace) + [Exec(HyprctlCommand(command), outcome)]
    ensures host.replies == old(host.replies)
    ensures r == Settle(outcome)
  {
    var ended := host.Run(HyprctlCommand(command));
    outcome := ended;
    r := Settle(ended);
  }

  /** getWMInfo: both queries are launched, `activewindow` first, and their replies are
      merged once both have settled; which one settles first is up to the host. The ghost
      results are how the two processes ended. */
  method GetWMInfo(host: Host) returns (r: Result<WMInfo, WMError>, ghost windowReply: ExecOutcome, ghost cursorReply: ExecOutcome)
    modifies host
    ensures host.trace == old(host.trace) + [Exec("hyprctl -j activewindow", windowReply), Exec("hyprctl -j cursorpos", cursorReply)]
    ensures host.replies == old(host.replies)
    ensures r == WMInfoOf(Settle(windowReply), Settle(cursorReply), true)
         || r == WMInfoOf(Settle(windowReply), Settle(cursorReply), false)
  {
    assert HyprctlCommand("activewindow") == "hyprctl -j activewindow";
    assert HyprctlCommand("cursorpos") == "hyprctl -j cursorpos";
    var activewindow, cursorpos;
    activewindow, windowReply := Hyprctl(host, "activewindow");
    cursorpos, cursorReply := Hyprctl(host, "cursorpos");
    var activeFirst: bool := *;
    r := WMInfoOf(activewindow, cursorpos, activeFirst);
  }

  /** bindShortcut: exactly one native registration of the same shortcut; a native
      failure rejects the call. The ghost result is what the native call did. */
  method BindShortcut(host: Host, shortcut: Shortcut) returns (r: Outcome<string>, ghost native: NativeOutcome)
    modifies host
    ensures host.trace == old(host.trace) + [Bind(shortcut)]
    ensures host.replies == old(host.replies) + [native]
    ensures r == if native.Threw? then Fail(native.message) else Pass
  {
    var outcome := host.BindShortcut(shortcut);
    native := outcome;
    r := if outcome.Threw? then Fail(outcome.message) else Pass;
  }

  /** unbindShortcut: exactly one native deregistration of the same shortcut; a native
      failure rejects the call. The ghost result is what the native call did. */
  method UnbindShortcut(host: Host, shortcut: Shortcut) returns (r: Outcome<string>, ghost native: NativeOutcome)
    modifies host
    ensures host.trace == old(host.trace) + [Unbind(shortcut)]
    ensures host.replies == old(host.replies) + [native]
    ensures r == if native.Threw? then Fail(native.message) else Pass
  {
    var outcome := host.UnbindShortcut(shortcut);
    native := outcome;
    r := if outcome.Threw? then Fail(outcome.message) else Pass;
  }

  /** unbindAllShortcuts: exactly one native call; a native failure rejects the call.
      The ghost result is what the native call did. */
  method UnbindAllShortcuts(host: Host) returns (r: Outcome<string>, ghost native: NativeOutcome)
    modifies host
    ensures host.trace == old(host.trace) + [UnbindAll]
    ensures host.replies == old(host.replies) + [native]
    ensures r == if native.Threw? then Fail(native.message) else Pass
  {
    var outcome := host.UnbindAllShortcuts();
    native := outcome;
    r := if outcome.Threw? then Fail(outcome.message) else Pass;
  }
}
