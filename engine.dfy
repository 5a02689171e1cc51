/** The session/protocol engine of src/main.ts: the page registry, the
    authentication gate, commit routing, and the lifecycle and custom-event
    dispatchers with their reset-on-failure boundary. The pure functions below
    say what one inbound message emits; the class Cushax does it step by step
    and is proved to emit exactly that. */
module Engine {
  import opened Protocol

  // ---------------------------------------------------------------------------
  // Handlers, bundles and the page capability
  // ---------------------------------------------------------------------------

  /** `SocketIdentity` or its absence: the optional third argument of the root
      commit. */
  datatype Target = Everyone | SocketObject(socket: SocketId) | SocketIdString(id: string)

  /** What a handler does through the engine. */
  datatype Action =
    | PageCommit(mutation: string, payload: Value)                 // page.commit(name, payload)
    | RootCommit(mutation: string, payload: Value, target: Target) // cushax.commit(name, payload, target?)

  /** A handler's behaviour on one call: its commits in order, then whether it
      throws. */
  datatype Script = Script(actions: seq<Action>, throws: bool)

  /** The argument object a handler receives (`data` only for custom events). */
  datatype Call = Call(data: Option<Value>, payload: Value, socket: SocketId)

  type Handler = Call -> Script

  /** `PageOptions`: one page's handler bundle. */
  datatype PageOptions = PageOptions(
    name: string,
    enter: Option<Handler>,
    leave: Option<Handler>,
    update: Option<Handler>,
    keep: Option<bool>,
    events: map<string, Handler>)

  /** `!options.keep` is false only for a present `true`. */
  predicate Keeps(o: PageOptions)
  {
    o.keep == Some(true)
  }

  /** The keys of a bundle object that are not custom events. */
  const ReservedKeys: set<string> := {"name", "keep", "enter", "leave", "update"}

  /** Custom events are further keys of the same object as `name`, `keep` and
      the three lifecycle callbacks, so none of them reuses one of those keys. */
  predicate OneObject(o: PageOptions)
  {
    o.events.Keys !! ReservedKeys
  }

  /** A registry maps each name to the bundle registered under that same name,
      and every bundle is one object. */
  ghost predicate RegistryWellFormed(pages: map<string, PageOptions>)
  {
    forall n :: n in pages ==> pages[n].name == n && OneObject(pages[n])
  }

  // ---------------------------------------------------------------------------
  // Commit routing (`_commit`)
  // ---------------------------------------------------------------------------

  /** `if (socket)`: a socket object is always truthy, an id string unless empty. */
  predicate TargetGiven(t: Target)
  {
    match t
    case Everyone => false
    case SocketObject(_) => true
    case SocketIdString(id) => id != ""
  }

  /** The id a given target resolves to. */
  function TargetId(t: Target): SocketId
    requires TargetGiven(t)
  {
    match t
    case SocketObject(s) => s
    case SocketIdString(id) => id
  }

  function CommitEmission(mutation: string, payload: Value, t: Target): Emission
  {
    if TargetGiven(t) then ToSocket(TargetId(t), Commit(mutation, payload))
    else Broadcast(Commit(mutation, payload))
  }

  /** A root commit with a target reaches only that connection; without one
      (or with an empty id) every connected one. */
  lemma CommitReachesTargetOrAll(mutation: string, payload: Value, t: Target, connected: set<SocketId>)
    ensures CommitEmission(mutation, payload, t).msg == Commit(mutation, payload)
    ensures TargetGiven(t) ==> Recipients(CommitEmission(mutation, payload, t), connected) == connected * {TargetId(t)}
    ensures !TargetGiven(t) ==> Recipients(CommitEmission(mutation, payload, t), connected) == connected
  {
  }

  // ---------------------------------------------------------------------------
  // What a handler emits
  // ---------------------------------------------------------------------------

  function ActionEmission(a: Action, h: PageHandle): Emission
  {
    match a
    case PageCommit(m, p) => PageCommitEmission(h, m, p)
    case RootCommit(m, p, t) => CommitEmission(m, p, t)
  }

  /** The emissions of the actions of a script, in order. */
  function ScriptEmissions(actions: seq<Action>, h: PageHandle): seq<Emission>
  {
    if actions == [] then []
    else ScriptEmissions(actions[..|actions| - 1], h) + [ActionEmission(actions[|actions| - 1], h)]
  }

  /** Each action emits exactly one message, at its own position. */
  lemma {:induction false} ScriptEmissionsAt(actions: seq<Action>, h: PageHandle)
    ensures |ScriptEmissions(actions, h)| == |actions|
    ensures forall k :: 0 <= k < |actions| ==> ScriptEmissions(actions, h)[k] == ActionEmission(actions[k], h)
  {
    if actions != [] {
      ScriptEmissionsAt(actions[..|actions| - 1], h);
    }
  }

  /** Handlers emit only commits: a page commit goes to the capability's
      connection about the capability's page; handlers never emit a reset or an
      auth result themselves. */
  lemma {:induction false} HandlerEmissionsAreCommits(actions: seq<Action>, h: PageHandle)
    ensures forall e :: e in ScriptEmissions(actions, h) ==> e.msg.Commit? || e.msg.PageSync?
    ensures forall e :: e in ScriptEmissions(actions, h) && e.msg.PageSync? ==>
              e == ToSocket(h.socket, PageSync(h.page, e.msg.mutation, e.msg.payload))
  {
    ScriptEmissionsAt(actions, h);
  }

  /** Calling an optional handler (`?.( … )`): absent means no call. */
  function Invoke(handler: Option<Handler>, call: Call, h: PageHandle): Run
  {
    if handler.None? then Nothing
    else Run(ScriptEmissions(handler.value(call).actions, h), handler.value(call).throws)
  }

  // ---------------------------------------------------------------------------
  // Lifecycle dispatch (`onPageSync`)
  // ---------------------------------------------------------------------------

  function HookHandler(o: PageOptions, hook: Hook): Option<Handler>
  {
    match hook
    case EnterHook => o.enter
    case LeaveHook => o.leave
    case UpdateHook => o.update
  }

  /** One of the three `if (enter)`, `if (leave)`, `if (update)` blocks. A
      leave on a registered page is followed, unless the bundle keeps its
      state, by a reset naming the bundle. */
  function HookStep(pages: map<string, PageOptions>, s: SocketId, f: Option<PageInfo>, hook: Hook): Run
  {
    if f.None? || f.value.page !in pages then Nothing
    else
      var o := pages[f.value.page];
      var r := Invoke(HookHandler(o, hook), Call(None, f.value.payload, s), GetPage(s, f.value.page));
      if hook == LeaveHook && !r.threw && !Keeps(o) then Run(r.out + [ToSocket(s, Reset([o.name]))], false)
      else r
  }

  function SyncRun(pages: map<string, PageOptions>, s: SocketId, e: PageSyncEvent): Run
  {
    Then(HookStep(pages, s, e.enter, EnterHook),
         Then(HookStep(pages, s, e.leave, LeaveHook), HookStep(pages, s, e.update, UpdateHook)))
  }

  /** Everything `onPageSync(socket, event)` emits. */
  function SyncEmissions(pages: map<string, PageOptions>, s: SocketId, e: PageSyncEvent): seq<Emission>
  {
    Recover(SyncRun(pages, s, e), s, SyncResetPages(e))
  }

  /** A field naming an unregistered page, or a registered page without that
      callback (other than leave, which may still reset), does nothing. */
  lemma UnknownTargetIsNoop(pages: map<string, PageOptions>, s: SocketId, f: Option<PageInfo>, hook: Hook)
    requires f.None? || f.value.page !in pages || (hook != LeaveHook && HookHandler(pages[f.value.page], hook).None?)
    ensures HookStep(pages, s, f, hook) == Nothing
  {
  }

  /** An envelope whose fields all do nothing emits nothing at all: no
      dispatch, no error, no reset. */
  lemma UnregisteredPagesEmitNothing(pages: map<string, PageOptions>, s: SocketId, e: PageSyncEvent)
    requires forall f :: f in [e.enter, e.leave, e.update] && f.Some? ==> f.value.page !in pages
    ensures SyncEmissions(pages, s, e) == []
  {
    assert e.enter in [e.enter, e.leave, e.update];
    assert e.leave in [e.enter, e.leave, e.update];
    assert e.update in [e.enter, e.leave, e.update];
  }

  /** Without a throw, the fields are handled strictly in the order enter,
      leave, update, and nothing else is emitted. */
  lemma SyncOrder(pages: map<string, PageOptions>, s: SocketId, e: PageSyncEvent)
    requires !HookStep(pages, s, e.enter, EnterHook).threw
    requires !HookStep(pages, s, e.leave, LeaveHook).threw
    requires !HookStep(pages, s, e.update, UpdateHook).threw
    ensures SyncEmissions(pages, s, e) ==
      HookStep(pages, s, e.enter, EnterHook).out + HookStep(pages, s, e.leave, LeaveHook).out
      + HookStep(pages, s, e.update, UpdateHook).out
  {
  }

  /** Leaving a registered page runs its leave callback and then, iff `keep`
      is falsy, emits the reset [page] after the callback's own emissions. */
  lemma LeaveResetsUnlessKept(pages: map<string, PageOptions>, s: SocketId, info: PageInfo)
    requires RegistryWellFormed(pages)
    requires info.page in pages
    requires !Invoke(pages[info.page].leave, Call(None, info.payload, s), GetPage(s, info.page)).threw
    ensures var before := Invoke(pages[info.page].leave, Call(None, info.payload, s), GetPage(s, info.page)).out;
            HookStep(pages, s, Some(info), LeaveHook) ==
              Run(before + (if Keeps(pages[info.page]) then [] else [ToSocket(s, Reset([info.page]))]), false)
  {
  }

  /** A throw skips the remaining fields, keeps what was already emitted and
      appends exactly one reset naming the page of every present field. */
  lemma SyncFailureResetsOnce(pages: map<string, PageOptions>, s: SocketId, e: PageSyncEvent)
    ensures var reset := ToSocket(s, Reset(SyncResetPages(e)));
            var en := HookStep(pages, s, e.enter, EnterHook);
            var lv := HookStep(pages, s, e.leave, LeaveHook);
            var up := HookStep(pages, s, e.update, UpdateHook);
            && (en.threw ==> SyncEmissions(pages, s, e) == en.out + [reset])
            && (!en.threw && lv.threw ==> SyncEmissions(pages, s, e) == en.out + lv.out + [reset])
            && (!en.threw && !lv.threw && up.threw ==>
                  SyncEmissions(pages, s, e) == en.out + lv.out + up.out + [reset])
  {
  }

  /** What a field's work emits before any reset: only handler commits, then at
      most the leave reset as its last emission. */
  lemma {:induction false} HookStepShape(pages: map<string, PageOptions>, s: SocketId, f: Option<PageInfo>, hook: Hook)
    ensures var out := HookStep(pages, s, f, hook).out;
            forall k :: 0 <= k < |out| && out[k].msg.Reset? ==>
              k == |out| - 1 && hook == LeaveHook && out[k] == ToSocket(s, Reset([pages[f.value.page].name]))
  {
    if f.Some? && f.value.page in pages {
      var o := pages[f.value.page];
      var handler := HookHandler(o, hook);
      if handler.Some? {
        HandlerEmissionsAreCommits(handler.value(Call(None, f.value.payload, s)).actions, GetPage(s, f.value.page));
      }
    }
  }

  /** The number of "*" (reset) messages among some emissions. */
  function ResetCount(out: seq<Emission>): nat
  {
    if out == [] then 0
    else ResetCount(out[..|out| - 1]) + (if out[|out| - 1].msg.Reset? then 1 else 0)
  }

  lemma {:induction false} ResetCountAppend(a: seq<Emission>, b: seq<Emission>)
    ensures ResetCount(a + b) == ResetCount(a) + ResetCount(b)
  {
    if b == [] {
      assert a + b == a;
    } else {
      assert (a + b)[..|a + b| - 1] == a + b[..|b| - 1];
      ResetCountAppend(a, b[..|b| - 1]);
    }
  }

  lemma {:induction false} ResetCountNone(out: seq<Emission>)
    requires forall k :: 0 <= k < |out| ==> !out[k].msg.Reset?
    ensures ResetCount(out) == 0
  {
    if out != [] {
      ResetCountNone(out[..|out| - 1]);
    }
  }

  /** One field's work emits at most one reset, and only for leave. */
  lemma HookStepResetCount(pages: map<string, PageOptions>, s: SocketId, f: Option<PageInfo>, hook: Hook)
    ensures ResetCount(HookStep(pages, s, f, hook).out) <= (if hook == LeaveHook then 1 else 0)
  {
    HookStepShape(pages, s, f, hook);
    var out := HookStep(pages, s, f, hook).out;
    if out != [] {
      ResetCountNone(out[..|out| - 1]);
    }
  }

  /** A lifecycle dispatch emits at most two resets: the one after a leave
      that does not keep its state, and the one closing a failed dispatch.
      Without a leave field, a reset is emitted exactly when a handler threw. */
  lemma SyncResetCount(pages: map<string, PageOptions>, s: SocketId, e: PageSyncEvent)
    ensures var r := SyncRun(pages, s, e);
            ResetCount(SyncEmissions(pages, s, e)) == ResetCount(r.out) + (if r.threw then 1 else 0)
    ensures ResetCount(SyncRun(pages, s, e).out) <= 1
    ensures ResetCount(SyncEmissions(pages, s, e)) <= 2
    ensures e.leave.None? ==> (ResetCount(SyncEmissions(pages, s, e)) == 1 <==> SyncRun(pages, s, e).threw)
    ensures e.leave.None? ==> ResetCount(SyncEmissions(pages, s, e)) <= 1
  {
    var en := HookStep(pages, s, e.enter, EnterHook);
    var lv := HookStep(pages, s, e.leave, LeaveHook);
    var up := HookStep(pages, s, e.update, UpdateHook);
    HookStepResetCount(pages, s, e.enter, EnterHook);
    HookStepResetCount(pages, s, e.leave, LeaveHook);
    HookStepResetCount(pages, s, e.update, UpdateHook);
    if e.leave.None? {
      assert lv == Nothing;
    }
    var r := SyncRun(pages, s, e);
    if !en.threw {
      ResetCountAppend(en.out, lv.out);
      if !lv.threw {
        ResetCountAppend(en.out + lv.out, up.out);
        AppendAssoc(en.out, lv.out, up.out);
      }
    }
    if r.threw {
      ResetCountAppend(r.out, [ToSocket(s, Reset(SyncResetPages(e)))]);
      assert ResetCount([ToSocket(s, Reset(SyncResetPages(e)))]) == 1 by {
        assert [ToSocket(s, Reset(SyncResetPages(e)))][..0] == [];
      }
    }
  }

  // ---------------------------------------------------------------------------
  // Custom-event dispatch (`onPageEvent`)
  // ---------------------------------------------------------------------------

  /** What `options[eventName]` is: nothing, a function, or a value that is not
      a function (calling it throws a TypeError). */
  datatype Prop = Absent | Callable(handler: Handler) | NotCallable

  function Property(o: PageOptions, key: string): Prop
  {
    if key == "name" then NotCallable
    else if key == "keep" then (if o.keep.Some? then NotCallable else Absent)
    else if key == "enter" then (if o.enter.Some? then Callable(o.enter.value) else Absent)
    else if key == "leave" then (if o.leave.Some? then Callable(o.leave.value) else Absent)
    else if key == "update" then (if o.update.Some? then Callable(o.update.value) else Absent)
    else if key in o.events then Callable(o.events[key])
    else Absent
  }

  /** The key under which a lifecycle callback sits in the bundle object. */
  function HookKey(hook: Hook): string
  {
    match hook
    case EnterHook => "enter"
    case LeaveHook => "leave"
    case UpdateHook => "update"
  }

  /** The lifecycle dispatcher and the custom-event lookup read the same
      object: `options[eventName]` for a lifecycle key is the callback
      `onPageSync` would call, and for any other key except `name` and `keep`
      it is the custom event of that name. */
  lemma PropertyViewsAgree(o: PageOptions, hook: Hook, key: string)
    requires OneObject(o)
    ensures HookHandler(o, hook).Some? ==> Property(o, HookKey(hook)) == Callable(HookHandler(o, hook).value)
    ensures HookHandler(o, hook).None? ==> Property(o, HookKey(hook)) == Absent
    ensures key in o.events ==> key !in ReservedKeys && Property(o, key) == Callable(o.events[key])
    ensures key !in ReservedKeys ==> (Property(o, key).Callable? <==> key in o.events)
  {
  }

  function EventRun(pages: map<string, PageOptions>, s: SocketId, ev: PageEventEvent): Run
  {
    if ev.page.page !in pages then Nothing
    else match Property(pages[ev.page.page], ev.event)
      case Absent => Nothing
      case NotCallable => Run([], true)
      case Callable(handler) =>
        Invoke(Some(handler), Call(Some(ev.data), ev.page.payload, s), GetPage(s, ev.page.page))
  }

  /** Everything `onPageEvent(socket, event)` emits. */
  function EventEmissions(pages: map<string, PageOptions>, s: SocketId, ev: PageEventEvent): seq<Emission>
  {
    Recover(EventRun(pages, s, ev), s, EventResetPages(ev))
  }

  /** An unknown page or event name emits nothing; a callback that throws (or
      a property that is not a function) is followed by exactly one reset
      naming the event's page. */
  lemma EventOutcomes(pages: map<string, PageOptions>, s: SocketId, ev: PageEventEvent)
    ensures ev.page.page !in pages || Property(pages[ev.page.page], ev.event).Absent? ==>
              EventEmissions(pages, s, ev) == []
    ensures ev.page.page in pages && Property(pages[ev.page.page], ev.event).NotCallable? ==>
              EventEmissions(pages, s, ev) == [ToSocket(s, Reset(EventResetPages(ev)))]
    ensures ev.page.page in pages && Property(pages[ev.page.page], ev.event).Callable? ==>
              var script := Property(pages[ev.page.page], ev.event).handler(Call(Some(ev.data), ev.page.payload, s));
              EventEmissions(pages, s, ev) ==
                ScriptEmissions(script.actions, GetPage(s, ev.page.page))
                + (if script.throws then [ToSocket(s, Reset(EventResetPages(ev)))] else [])
    ensures ev.page.page != "" ==> EventResetPages(ev) == [ev.page.page]
  {
  }

  // ---------------------------------------------------------------------------
  // Authentication
  // ---------------------------------------------------------------------------

  /** The settled outcome of one `await fn(event)`. */
  datatype Verdict = Truthy | Falsy | Rejects

  type AuthFunction = Value -> Verdict

  ghost predicate AllPass(fns: seq<AuthFunction>, data: Value)
  {
    forall i :: 0 <= i < |fns| ==> fns[i](data) == Truthy
  }

  /** The `for … of authFns` loop: runs the predicates in order and stops at the
      first one that is falsy or rejects. `evaluated` is how many ran. */
  method EvaluateAuth(fns: seq<AuthFunction>, data: Value) returns (passed: bool, evaluated: nat)
    ensures evaluated <= |fns|
    ensures passed <==> AllPass(fns, data)
    ensures passed ==> evaluated == |fns|
    ensures !passed ==> 0 < evaluated && fns[evaluated - 1](data) != Truthy
    ensures forall i :: 0 <= i < evaluated - 1 ==> fns[i](data) == Truthy
  {
    evaluated := 0;
    while evaluated < |fns|
      invariant evaluated <= |fns|
      invariant forall i :: 0 <= i < evaluated ==> fns[i](data) == Truthy
    {
      var verdict := fns[evaluated](data);
      evaluated := evaluated + 1;
      if verdict != Truthy {
        return false, evaluated;
      }
    }
    passed := true;
  }

  // ---------------------------------------------------------------------------
  // The engine
  // ---------------------------------------------------------------------------

  /** One inbound message on a connection of the namespace. */
  datatype Inbound = AuthRequest(data: Value) | SyncRequest(sync: PageSyncEvent) | EventRequest(event: PageEventEvent)

  class Cushax {
    var pages: map<string, PageOptions>
    var authFns: seq<AuthFunction>
    /** `socket.$cushax_verified`, by connection id; a missing entry is undefined. */
    var verified: map<SocketId, bool>
    var outbox: seq<Emission>

    ghost predicate Valid()
      reads this
    {
      RegistryWellFormed(pages)
    }

    constructor ()
      ensures Valid()
      ensures pages == map[] && authFns == [] && verified == map[] && outbox == []
    {
      pages, authFns, verified, outbox := map[], [], map[], [];
    }

    /** `auth(fn)`: append a predicate. */
    method Auth(fn: AuthFunction)
      modifies this`authFns
      ensures authFns == old(authFns) + [fn]
    {
      authFns := authFns + [fn];
    }

    /** `page(options)`: register a bundle, replacing any of the same name. */
    method Page(o: PageOptions)
      requires Valid()
      requires OneObject(o)
      modifies this`pages
      ensures Valid()
      ensures pages == old(pages)[o.name := o]
      ensures o.name in pages && pages[o.name] == o
      ensures forall n :: n != o.name ==> (n in pages <==> n in old(pages)) && (n in pages ==> pages[n] == old(pages)[n])
    {
      pages := pages[o.name := o];
    }

    predicate Verified(s: SocketId)
      reads this
    {
      s in verified && verified[s]
    }

    /** `_checkAuth(socket)`. */
    predicate CheckAuth(s: SocketId)
      reads this
    {
      |authFns| == 0 || Verified(s)
    }

    /** `_commit(name, payload, socket?)`. */
    method Commit(mutation: string, payload: Value, t: Target)
      modifies this`outbox
      ensures outbox == old(outbox) + [CommitEmission(mutation, payload, t)]
    {
      if TargetGiven(t) {
        var id := TargetId(t);
        outbox := outbox + [ToSocket(id, Message.Commit(mutation, payload))];
      } else {
        outbox := outbox + [Broadcast(Message.Commit(mutation, payload))];
      }
    }

    /** `onAuth(socket, event)`. */
    method OnAuth(s: SocketId, data: Value)
      modifies this`verified, this`outbox
      ensures verified == old(verified)[s := AllPass(authFns, data)]
      ensures outbox == old(outbox) + [ToSocket(s, AuthResult(AllPass(authFns, data)))]
      ensures CheckAuth(s) <==> AllPass(authFns, data)
    {
      var passed, _ := EvaluateAuth(authFns, data);
      verified := verified[s := passed];
      outbox := outbox + [ToSocket(s, AuthResult(passed))];
    }

    /** `onPageCommit(socket, page, name, payload)`. */
    method OnPageCommit(s: SocketId, page: string, mutation: string, payload: Value)
      modifies this`outbox
      ensures outbox == old(outbox) + [PageCommitEmission(GetPage(s, page), mutation, payload)]
    {
      outbox := outbox + [ToSocket(s, PageSync(page, mutation, payload))];
    }

    /** `resetPage(socket, ...pages)`. */
    method ResetPage(s: SocketId, names: seq<string>)
      modifies this`outbox
      ensures outbox == old(outbox) + [ToSocket(s, Reset(names))]
    {
      outbox := outbox + [ToSocket(s, Reset(names))];
    }

    /** Calls a handler: performs its commits one by one through the
        capability `h` or the root commit, then reports whether it threw. */
    method RunHandler(handler: Handler, call: Call, h: PageHandle) returns (threw: bool)
      modifies this`outbox
      ensures outbox == old(outbox) + Invoke(Some(handler), call, h).out
      ensures threw == Invoke(Some(handler), call, h).threw
    {
      var script := handler(call);
      var i := 0;
      while i < |script.actions|
        invariant i <= |script.actions|
        invariant outbox == old(outbox) + ScriptEmissions(script.actions[..i], h)
      {
        match script.actions[i] {
          case PageCommit(m, p) => OnPageCommit(h.socket, h.page, m, p);
          case RootCommit(m, p, t) => Commit(m, p, t);
        }
        assert script.actions[..i + 1][..i] == script.actions[..i];
        i := i + 1;
      }
      assert script.actions[..i] == script.actions;
      threw := script.throws;
    }

    /** One of the three field blocks of `onPageSync`. */
    method RunField(s: SocketId, f: Option<PageInfo>, hook: Hook) returns (threw: bool)
      modifies this`outbox
      ensures outbox == old(outbox) + HookStep(pages, s, f, hook).out
      ensures threw == HookStep(pages, s, f, hook).threw
    {
      threw := false;
      if f.Some? && f.value.page in pages {
        var info := f.value;
        var o := pages[info.page];
        var handler := HookHandler(o, hook);
        if handler.Some? {
          threw := RunHandler(handler.value, Call(None, info.payload, s), GetPage(s, info.page));
        }
        if hook == LeaveHook && !threw && !Keeps(o) {
          ResetPage(s, [o.name]);
        }
      }
    }

    /** `onPageSync(socket, event)`: enter, then leave, then update, inside one
        try block whose catch emits the reset. */
    method OnPageSync(s: SocketId, e: PageSyncEvent)
      modifies this`outbox
      ensures outbox == old(outbox) + SyncEmissions(pages, s, e)
    {
      ghost var enter := HookStep(pages, s, e.enter, EnterHook).out;
      ghost var leave := HookStep(pages, s, e.leave, LeaveHook).out;
      ghost var update := HookStep(pages, s, e.update, UpdateHook).out;
      var threw := RunField(s, e.enter, EnterHook);
      if !threw {
        threw := RunField(s, e.leave, LeaveHook);
        if !threw {
          threw := RunField(s, e.update, UpdateHook);
          AppendAssoc(old(outbox), enter, leave + update);
          AppendAssoc(old(outbox) + enter, leave, update);
        } else {
          AppendAssoc(old(outbox), enter, leave);
        }
      }
      if threw {
        ResetPage(s, SyncResetPages(e));
        AppendAssoc(old(outbox), SyncRun(pages, s, e).out, [ToSocket(s, Reset(SyncResetPages(e)))]);
      }
    }

    /** `onPageEvent(socket, event)`. */
    method OnPageEvent(s: SocketId, ev: PageEventEvent)
      modifies this`outbox
      ensures outbox == old(outbox) + EventEmissions(pages, s, ev)
    {
      var threw := false;
      var page := ev.page.page;
      if page in pages {
        match Property(pages[page], ev.event) {
          case Absent =>
          case NotCallable => threw := true;
          case Callable(handler) =>
            threw := RunHandler(handler, Call(Some(ev.data), ev.page.payload, s), GetPage(s, page));
        }
      }
      if threw {
        ResetPage(s, EventResetPages(ev));
      }
    }

    /** The listeners installed on each connection: `auth` always runs;
        `page:sync` and `page:event` run only past the gate, and are otherwise
        dropped without any emission. */
    method Receive(s: SocketId, m: Inbound)
      modifies this`verified, this`outbox
      ensures m.AuthRequest? ==>
                verified == old(verified)[s := AllPass(authFns, m.data)]
                && outbox == old(outbox) + [ToSocket(s, AuthResult(AllPass(authFns, m.data)))]
      ensures m.AuthRequest? ==> (CheckAuth(s) <==> AllPass(authFns, m.data))
      ensures !m.AuthRequest? ==> verified == old(verified)
      ensures m.SyncRequest? ==>
                outbox == old(outbox) + (if old(CheckAuth(s)) then SyncEmissions(pages, s, m.sync) else [])
      ensures m.EventRequest? ==>
                outbox == old(outbox) + (if old(CheckAuth(s)) then EventEmissions(pages, s, m.event) else [])
    {
      match m
      case AuthRequest(data) => OnAuth(s, data);
      case SyncRequest(e) => if CheckAuth(s) { OnPageSync(s, e); }
      case EventRequest(ev) => if CheckAuth(s) { OnPageEvent(s, ev); }
    }
  }
}
