/** The earlier revision of the engine, src/app.ts: the same registry and
    lifecycle dispatcher, but no authentication gate, handlers called with
    positional arguments (payload, page), and a root commit that delivers to
    the first client of the namespace only. The capability, the run
    bookkeeping and the reset lists are those of Protocol. */
module Legacy {
  import opened Protocol
  import Engine

  /** What a handler does through the engine. */
  datatype Action =
    | PageCommit(mutation: string, payload: Value) // page.commit(name, payload)
    | RootCommit(mutation: string, payload: Value) // cushax.commit(name, payload)

  datatype Script = Script(actions: seq<Action>, throws: bool)

  /** `enter(payload, page)` and friends: the capability is the second
      argument, so a handler's behaviour depends on the payload only. */
  type Handler = Value -> Script

  datatype PageOptions = PageOptions(
    name: string,
    enter: Option<Handler>,
    leave: Option<Handler>,
    update: Option<Handler>,
    keep: Option<bool>)

  predicate Kept(o: PageOptions)
  {
    o.keep == Some(true)
  }

  ghost predicate WellFormed(pages: map<string, PageOptions>)
  {
    forall n :: n in pages ==> pages[n].name == n
  }

  /** `commit(...args)`: the namespace's client list is destructured as
      `[id]`, so only its first id receives the commit; with no clients there
      is no addressee and nothing is delivered. */
  function RootCommitEmissions(mutation: string, payload: Value, clients: seq<SocketId>): seq<Emission>
  {
    if clients == [] then [] else [ToSocket(clients[0], Message.Commit(mutation, payload))]
  }

  /** The root commit reaches at most the first client, whichever are connected. */
  lemma RootCommitReachesFirstClientOnly(mutation: string, payload: Value, clients: seq<SocketId>, connected: set<SocketId>)
    ensures |RootCommitEmissions(mutation, payload, clients)| <= 1
    ensures forall e :: e in RootCommitEmissions(mutation, payload, clients) ==>
              e.msg == Message.Commit(mutation, payload) && Recipients(e, connected) <= {clients[0]}
    ensures clients != [] && clients[0] in connected ==>
              Recipients(RootCommitEmissions(mutation, payload, clients)[0], connected) == {clients[0]}
  {
  }

  /** With two connected clients the second never receives a root commit,
      where a namespace-wide broadcast would reach it. */
  lemma RootCommitIsNotBroadcast(mutation: string, payload: Value)
    ensures var out := RootCommitEmissions(mutation, payload, ["a", "b"]);
            forall e :: e in out ==> "b" !in Recipients(e, {"a", "b"})
    ensures "b" in Recipients(Engine.CommitEmission(mutation, payload, Engine.Everyone), {"a", "b"})
  {
  }

  function ActionEmissions(a: Action, h: PageHandle, clients: seq<SocketId>): seq<Emission>
  {
    match a
    case PageCommit(m, p) => [PageCommitEmission(h, m, p)]
    case RootCommit(m, p) => RootCommitEmissions(m, p, clients)
  }

  /** The emissions of the actions of a script, in order. */
  function ScriptEmissions(actions: seq<Action>, h: PageHandle, clients: seq<SocketId>): seq<Emission>
  {
    if actions == [] then []
    else ScriptEmissions(actions[..|actions| - 1], h, clients) + ActionEmissions(actions[|actions| - 1], h, clients)
  }

  /** A handler's emissions are page syncs bound to its capability's
      (connection, page) and commits to the first client; never a reset. */
  lemma {:induction false} HandlerEmissionsAreBound(actions: seq<Action>, h: PageHandle, clients: seq<SocketId>)
    ensures forall e :: e in ScriptEmissions(actions, h, clients) ==>
              || (e.msg.PageSync? && e == ToSocket(h.socket, PageSync(h.page, e.msg.mutation, e.msg.payload)))
              || (e.msg.Commit? && clients != [] && e == ToSocket(clients[0], e.msg))
  {
    if actions != [] {
      HandlerEmissionsAreBound(actions[..|actions| - 1], h, clients);
    }
  }

  function Invoke(handler: Option<Handler>, payload: Value, h: PageHandle, clients: seq<SocketId>): Run
  {
    if handler.None? then Nothing
    else Run(ScriptEmissions(handler.value(payload).actions, h, clients), handler.value(payload).throws)
  }

  function HookHandler(o: PageOptions, hook: Hook): Option<Handler>
  {
    match hook
    case EnterHook => o.enter
    case LeaveHook => o.leave
    case UpdateHook => o.update
  }

  /** One of the `if (enter)`, `if (leave)`, `if (update)` blocks. */
  function HookStep(pages: map<string, PageOptions>, s: SocketId, f: Option<PageInfo>, hook: Hook, clients: seq<SocketId>): Run
  {
    if f.None? || f.value.page !in pages then Nothing
    else
      var o := pages[f.value.page];
      var r := Invoke(HookHandler(o, hook), f.value.payload, GetPage(s, f.value.page), clients);
      if hook == LeaveHook && !r.threw && !Kept(o) then Run(r.out + [ToSocket(s, Reset([o.name]))], false)
      else r
  }

  function SyncRun(pages: map<string, PageOptions>, s: SocketId, e: PageSyncEvent, clients: seq<SocketId>): Run
  {
    Then(HookStep(pages, s, e.enter, EnterHook, clients),
         Then(HookStep(pages, s, e.leave, LeaveHook, clients), HookStep(pages, s, e.update, UpdateHook, clients)))
  }

  /** Everything `onPageSync(socket, event)` emits, given the namespace's
      client list at the time. */
  function SyncEmissions(pages: map<string, PageOptions>, s: SocketId, e: PageSyncEvent, clients: seq<SocketId>): seq<Emission>
  {
    Recover(SyncRun(pages, s, e, clients), s, SyncResetPages(e))
  }

  /** A missing page or callback is a no-op (leave may still reset). */
  lemma UnknownTargetIsNoop(pages: map<string, PageOptions>, s: SocketId, f: Option<PageInfo>, hook: Hook, clients: seq<SocketId>)
    requires f.None? || f.value.page !in pages || (hook != LeaveHook && HookHandler(pages[f.value.page], hook).None?)
    ensures HookStep(pages, s, f, hook, clients) == Nothing
  {
  }

  /** Without a throw: enter, then leave, then update, nothing else. */
  lemma SyncOrder(pages: map<string, PageOptions>, s: SocketId, e: PageSyncEvent, clients: seq<SocketId>)
    requires !HookStep(pages, s, e.enter, EnterHook, clients).threw
    requires !HookStep(pages, s, e.leave, LeaveHook, clients).threw
    requires !HookStep(pages, s, e.update, UpdateHook, clients).threw
    ensures SyncEmissions(pages, s, e, clients) ==
      HookStep(pages, s, e.enter, EnterHook, clients).out + HookStep(pages, s, e.leave, LeaveHook, clients).out
      + HookStep(pages, s, e.update, UpdateHook, clients).out
  {
  }

  /** Leaving a registered page emits the reset [page] after the leave
      callback's emissions iff `keep` is falsy. */
  lemma LeaveResetsUnlessKept(pages: map<string, PageOptions>, s: SocketId, info: PageInfo, clients: seq<SocketId>)
    requires WellFormed(pages)
    requires info.page in pages
    requires !Invoke(pages[info.page].leave, info.payload, GetPage(s, info.page), clients).threw
    ensures var before := Invoke(pages[info.page].leave, info.payload, GetPage(s, info.page), clients).out;
            HookStep(pages, s, Some(info), LeaveHook, clients) ==
              Run(before + (if Kept(pages[info.page]) then [] else [ToSocket(s, Reset([info.page]))]), false)
  {
  }

  /** A throw skips the remaining fields and appends exactly one reset
      naming the page of every present field. */
  lemma SyncFailureResetsOnce(pages: map<string, PageOptions>, s: SocketId, e: PageSyncEvent, clients: seq<SocketId>)
    ensures var reset := ToSocket(s, Reset(SyncResetPages(e)));
            var en := HookStep(pages, s, e.enter, EnterHook, clients);
            var lv := HookStep(pages, s, e.leave, LeaveHook, clients);
            var up := HookStep(pages, s, e.update, UpdateHook, clients);
            && (en.threw ==> SyncEmissions(pages, s, e, clients) == en.out + [reset])
            && (!en.threw && lv.threw ==> SyncEmissions(pages, s, e, clients) == en.out + lv.out + [reset])
            && (!en.threw && !lv.threw && up.threw ==>
                  SyncEmissions(pages, s, e, clients) == en.out + lv.out + up.out + [reset])
  {
  }

  class Cushax {
    var pages: map<string, PageOptions>
    var outbox: seq<Emission>

    ghost predicate Valid()
      reads this
    {
      WellFormed(pages)
    }

    constructor ()
      ensures Valid()
      ensures pages == map[] && outbox == []
    {
      pages, outbox := map[], [];
    }

    /** `page(options)`: register a bundle, replacing any of the same name. */
    method Page(o: PageOptions)
      requires Valid()
      modifies this`pages
      ensures Valid()
      ensures pages == old(pages)[o.name := o]
      ensures o.name in pages && pages[o.name] == o
      ensures forall n :: n != o.name ==> (n in pages <==> n in old(pages)) && (n in pages ==> pages[n] == old(pages)[n])
    {
      pages := pages[o.name := o];
    }

    /** `commit(...args)`, given the namespace's client list. */
    method Commit(mutation: string, payload: Value, clients: seq<SocketId>)
      modifies this`outbox
      ensures outbox == old(outbox) + RootCommitEmissions(mutation, payload, clients)
    {
      if clients != [] {
        var id := clients[0];
        outbox := outbox + [ToSocket(id, Message.Commit(mutation, payload))];
      }
    }

    /** `onPageCommit(socket, page, name, payload)`. */
    method OnPageCommit(s: SocketId, page: string, mutation: string, payload: Value)
      modifies this`outbox
      ensures outbox == old(outbox) + [PageCommitEmission(GetPage(s, page), mutation, payload)]
    {
      outbox := outbox + [ToSocket(s, PageSync(page, mutation, payload))];
    }

    /** `resetPage(socket, ...pages)`. */
    method ResetPage(s: SocketId, names: seq<string>)
      modifies this`outbox
      ensures outbox == old(outbox) + [ToSocket(s, Reset(names))]
    {
      outbox := outbox + [ToSocket(s, Reset(names))];
    }

    /** Calls `handler(payload, page)`: its commits one by one, then whether
        it threw. */
    method RunHandler(handler: Handler, payload: Value, h: PageHandle, clients: seq<SocketId>) returns (threw: bool)
      modifies this`outbox
      ensures outbox == old(outbox) + Invoke(Some(handler), payload, h, clients).out
      ensures threw == Invoke(Some(handler), payload, h, clients).threw
    {
      var script := handler(payload);
      var i := 0;
      while i < |script.actions|
        invariant i <= |script.actions|
        invariant outbox == old(outbox) + ScriptEmissions(script.actions[..i], h, clients)
      {
        match script.actions[i] {
          case PageCommit(m, p) => OnPageCommit(h.socket, h.page, m, p);
          case RootCommit(m, p) => Commit(m, p, clients);
        }
        assert script.actions[..i + 1][..i] == script.actions[..i];
        i := i + 1;
      }
      assert script.actions[..i] == script.actions;
      threw := script.throws;
    }

    method RunField(s: SocketId, f: Option<PageInfo>, hook: Hook, clients: seq<SocketId>) returns (threw: bool)
      modifies this`outbox
      ensures outbox == old(outbox) + HookStep(pages, s, f, hook, clients).out
      ensures threw == HookStep(pages, s, f, hook, clients).threw
    {
      threw := false;
      if f.Some? && f.value.page in pages {
        var info := f.value;
        var o := pages[info.page];
        var handler := HookHandler(o, hook);
        if handler.Some? {
          threw := RunHandler(handler.value, info.payload, GetPage(s, info.page), clients);
        }
        if hook == LeaveHook && !threw && !Kept(o) {
          ResetPage(s, [o.name]);
        }
      }
    }

    /** `onPageSync(socket, event)`, installed on every connection without any
        gate. */
    method OnPageSync(s: SocketId, e: PageSyncEvent, clients: seq<SocketId>)
      modifies this`outbox
      ensures outbox == old(outbox) + SyncEmissions(pages, s, e, clients)
    {
      ghost var enter := HookStep(pages, s, e.enter, EnterHook, clients).out;
      ghost var leave := HookStep(pages, s, e.leave, LeaveHook, clients).out;
      ghost var update := HookStep(pages, s, e.update, UpdateHook, clients).out;
      var threw := RunField(s, e.enter, EnterHook, clients);
      if !threw {
        threw := RunField(s, e.leave, LeaveHook, clients);
        if !threw {
          threw := RunField(s, e.update, UpdateHook, clients);
          AppendAssoc(old(outbox), enter, leave + update);
          AppendAssoc(old(outbox) + enter, leave, update);
        } else {
          AppendAssoc(old(outbox), enter, leave);
        }
      }
      if threw {
        ResetPage(s, SyncResetPages(e));
        AppendAssoc(old(outbox), SyncRun(pages, s, e, clients).out, [ToSocket(s, Reset(SyncResetPages(e)))]);
      }
    }
  }
}
