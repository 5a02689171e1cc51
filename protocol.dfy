/** Wire-level shapes shared by both revisions of the Cushax engine: the opaque
    values clients send, the messages the server emits on the "/cushax"
    namespace, the outbox records the transport is abstracted to, and the
    inbound lifecycle / custom-event envelopes. */
module Protocol {

  datatype Option<+T> = None | Some(value: T)

  /** A connection's identity (socket.io's `socket.id`). */
  type SocketId = string

  /** Payloads, custom-event data and credentials are opaque to the engine. */
  datatype Value = Null | Bool(b: bool) | Num(n: int) | Text(s: string) | List(items: seq<Value>)

  /** Server-to-client messages, one constructor per outbound event name. */
  datatype Message =
    | AuthResult(ok: bool)                                      // "auth"
    | Commit(mutation: string, payload: Value)                  // "commit"
    | PageSync(page: string, mutation: string, payload: Value)  // "page:sync"
    | Reset(pages: seq<string>)                                 // "*"

  /** One emission recorded in the outbox: addressed to one connection id, or
      to the whole namespace. */
  datatype Emission = ToSocket(id: SocketId, msg: Message) | Broadcast(msg: Message)

  /** The connections that receive an emission, given the ids connected at the
      moment it is sent. An id that is not connected receives nothing; there is
      no buffering. */
  function Recipients(e: Emission, connected: set<SocketId>): (r: set<SocketId>)
    ensures r <= connected
    ensures e.ToSocket? ==> r <= {e.id} && (e.id in connected ==> e.id in r)
    ensures e.Broadcast? ==> r == connected
  {
    match e
    case ToSocket(id, _) => if id in connected then {id} else {}
    case Broadcast(_) => connected
  }

  /** `PageInfo`: the page a lifecycle or custom event is about. */
  datatype PageInfo = PageInfo(page: string, payload: Value)

  /** `PageSyncEvent`: a lifecycle envelope; any subset of the three fields. */
  datatype PageSyncEvent = PageSyncEvent(enter: Option<PageInfo>, leave: Option<PageInfo>, update: Option<PageInfo>)

  /** `PageEventEvent`: a custom event addressed to one page. */
  datatype PageEventEvent = PageEventEvent(event: string, page: PageInfo, data: Value)

  /** Whether an envelope field is present and carries page name `p`. */
  predicate Names(f: Option<PageInfo>, p: string)
  {
    f.Some? && f.value.page == p
  }

  /** The page of one envelope field, kept only when present and truthy. */
  function FieldPage(f: Option<PageInfo>): (r: seq<string>)
    ensures |r| <= 1
    ensures forall p :: p in r <==> p != "" && Names(f, p)
  {
    if f.Some? && f.value.page != "" then [f.value.page] else []
  }

  /** The page list of the reset emitted when a lifecycle dispatch fails: the
      page of every present field, in field order, empty names dropped, with
      no de-duplication. */
  function SyncResetPages(e: PageSyncEvent): (r: seq<string>)
    ensures |r| <= 3
    ensures forall k :: 0 <= k < |r| ==> r[k] != ""
    ensures forall p :: p in r <==> p != "" && (Names(e.enter, p) || Names(e.leave, p) || Names(e.update, p))
  {
    FieldPage(e.enter) + FieldPage(e.leave) + FieldPage(e.update)
  }

  /** The page list of the reset emitted when a custom-event dispatch fails:
      the event's page name, unless it is empty. */
  function EventResetPages(ev: PageEventEvent): (r: seq<string>)
    ensures |r| <= 1
    ensures forall p :: p in r <==> p != "" && p == ev.page.page
  {
    FieldPage(Some(ev.page))
  }

  // ---------------------------------------------------------------------------
  // The page capability and dispatch bookkeeping, common to both revisions
  // ---------------------------------------------------------------------------

  /** The capability `getPage(socket, page)` returns: a commit function closed
      over the connection and the page. */
  datatype PageHandle = PageHandle(socket: SocketId, page: string)

  function GetPage(s: SocketId, page: string): PageHandle
  {
    PageHandle(s, page)
  }

  /** What one `commit(name, payload)` on a capability emits (`onPageCommit`). */
  function PageCommitEmission(h: PageHandle, mutation: string, payload: Value): Emission
  {
    ToSocket(h.socket, PageSync(h.page, mutation, payload))
  }

  /** Whatever name and payload a handler passes, a capability built for
      (s, p) sends a `page:sync` about page p to connection s and to no one
      else. */
  lemma CapabilityIsBound(s: SocketId, p: string, mutation: string, payload: Value, connected: set<SocketId>)
    ensures Recipients(PageCommitEmission(GetPage(s, p), mutation, payload), connected) <= {s}
    ensures s in connected ==> Recipients(PageCommitEmission(GetPage(s, p), mutation, payload), connected) == {s}
    ensures PageCommitEmission(GetPage(s, p), mutation, payload).msg == PageSync(p, mutation, payload)
  {
  }

  /** The outcome of running part of one dispatch: what it emitted, and
      whether it threw. */
  datatype Run = Run(out: seq<Emission>, threw: bool)

  const Nothing := Run([], false)

  /** Sequencing inside a try block: after a throw nothing more runs. */
  function Then(first: Run, second: Run): Run
  {
    if first.threw then first else Run(first.out + second.out, second.threw)
  }

  /** The catch block: on a throw, one reset naming `pages` is appended. */
  function Recover(r: Run, s: SocketId, pages: seq<string>): seq<Emission>
  {
    if r.threw then r.out + [ToSocket(s, Reset(pages))] else r.out
  }

  /** Regrouping appended outbox segments. */
  lemma AppendAssoc<T>(x: seq<T>, a: seq<T>, b: seq<T>)
    ensures x + a + b == x + (a + b)
  {
  }

  /** The three fields of a lifecycle envelope, in dispatch order. */
  datatype Hook = EnterHook | LeaveHook | UpdateHook

  /** An envelope naming "a" for enter and "b" for update is reset as ["a", "b"];
      one naming the same page in every field lists it once per field. */
  lemma ResetListsEveryField(pa: Value, pb: Value)
    ensures SyncResetPages(PageSyncEvent(Some(PageInfo("a", pa)), None, Some(PageInfo("b", pb)))) == ["a", "b"]
    ensures SyncResetPages(PageSyncEvent(Some(PageInfo("a", pa)), Some(PageInfo("a", pa)), Some(PageInfo("a", pb)))) == ["a", "a", "a"]
  {
  }
}
