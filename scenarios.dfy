/** Concrete scenarios for both engines: the demo pages of src/app.ts, the
    authentication handshake against a `token === "secret"` predicate, and a
    failing two-field envelope. */
module Scenarios {
  import opened Protocol
  import Engine
  import Legacy

  /** The demo page "foo" of src/app.ts: its enter destructures `{ params }`
      from the payload (which throws on null) and then commits twice through
      its capability; leave and update do nothing observable. */
  function DemoFoo(): Legacy.PageOptions
  {
    Legacy.PageOptions(
      "foo",
      Some(p => if p == Null then Legacy.Script([], true)
                else Legacy.Script([Legacy.PageCommit("changeAge", Num(18)), Legacy.PageCommit("setName", Text("boen"))], false)),
      Some(p => Legacy.Script([], false)),
      Some(p => Legacy.Script([], false)),
      None)
  }

  /** The demo page "bar": its enter commits once. */
  function DemoBar(): Legacy.PageOptions
  {
    Legacy.PageOptions(
      "bar",
      Some(p => if p == Null then Legacy.Script([], true)
                else Legacy.Script([Legacy.PageCommit("changeLength", Num(666))], false)),
      Some(p => Legacy.Script([], false)),
      Some(p => Legacy.Script([], false)),
      None)
  }

  /** Entering "foo" on connection "s1" sends `("foo", "changeAge", 18)` and
      then `("foo", "setName", "boen")` to "s1" only; another connected client
      receives neither. A null payload makes enter throw, and the client is
      told to reset "foo". */
  method DemoFooEnter() returns (out: seq<Emission>, failed: seq<Emission>)
    ensures out == [ToSocket("s1", PageSync("foo", "changeAge", Num(18))), ToSocket("s1", PageSync("foo", "setName", Text("boen")))]
    ensures forall e :: e in out ==> Recipients(e, {"s1", "s2"}) == {"s1"}
    ensures failed == [ToSocket("s1", Reset(["foo"]))]
  {
    var cushax := new Legacy.Cushax();
    cushax.Page(DemoFoo());
    cushax.Page(DemoBar());
    var params := List([]);
    cushax.OnPageSync("s1", PageSyncEvent(Some(PageInfo("foo", params)), None, None), ["s1", "s2"]);
    out := cushax.outbox;
    var nullEnter := PageSyncEvent(Some(PageInfo("foo", Null)), None, None);
    assert cushax.pages["foo"].enter.value(Null) == Legacy.Script([], true);
    assert Legacy.HookStep(cushax.pages, "s1", nullEnter.enter, EnterHook, ["s1", "s2"]) == Run([], true);
    assert SyncResetPages(nullEnter) == ["foo"];
    cushax.OnPageSync("s1", nullEnter, ["s1", "s2"]);
    failed := cushax.outbox[|out|..];
  }

  /** The page "foo" of the current revision: enter commits the age. */
  function CurrentFoo(): Engine.PageOptions
  {
    Engine.PageOptions("foo", Some(c => Engine.Script([Engine.PageCommit("changeAge", Num(18))], false)),
                       None, None, None, map[])
  }

  /** With the predicate `token === "secret"`: a bad token is answered
      `auth: false` and the following `page:sync` is dropped; the right token
      is answered `auth: true` and the next `page:sync` is dispatched. */
  method AuthHandshake() returns (out: seq<Emission>)
    ensures out == [
      ToSocket("s1", AuthResult(false)),
      ToSocket("s1", AuthResult(true)),
      ToSocket("s1", PageSync("foo", "changeAge", Num(18)))]
  {
    var cushax := new Engine.Cushax();
    cushax.Auth(token => if token == Text("secret") then Engine.Truthy else Engine.Falsy);
    cushax.Page(CurrentFoo());
    var enterFoo := Engine.SyncRequest(PageSyncEvent(Some(PageInfo("foo", Null)), None, None));
    cushax.Receive("s1", Engine.AuthRequest(Text("bad")));
    assert !Engine.AllPass(cushax.authFns, Text("bad")) by {
      assert cushax.authFns[0](Text("bad")) == Engine.Falsy;
    }
    cushax.Receive("s1", enterFoo);
    cushax.Receive("s1", Engine.AuthRequest(Text("secret")));
    assert cushax.authFns[0](Text("secret")) == Engine.Truthy;
    cushax.Receive("s1", enterFoo);
    out := cushax.outbox;
  }

  /** Page "a" whose enter commits once and page "b" whose update does
      nothing; exactly one of the two handlers throws. */
  function TwoPages(throwInEnter: bool): map<string, Engine.PageOptions>
  {
    map[
      "a" := Engine.PageOptions("a", Some(c => Engine.Script([Engine.PageCommit("x", Num(1))], throwInEnter)),
                                None, None, None, map[]),
      "b" := Engine.PageOptions("b", None, None, Some(c => Engine.Script([], !throwInEnter)), None, map[])]
  }

  /** An envelope with enter "a" and update "b": whichever of the two
      handlers throws, exactly one reset naming ["a", "b"] closes the
      dispatch, after what was emitted before the throw. */
  lemma FailingEnvelopeResetsBothPages(throwInEnter: bool)
    ensures Engine.SyncEmissions(TwoPages(throwInEnter), "s1",
              PageSyncEvent(Some(PageInfo("a", Null)), None, Some(PageInfo("b", Null))))
            == [ToSocket("s1", PageSync("a", "x", Num(1))), ToSocket("s1", Reset(["a", "b"]))]
  {
    var pages := TwoPages(throwInEnter);
    var e := PageSyncEvent(Some(PageInfo("a", Null)), None, Some(PageInfo("b", Null)));
    var commitX := ToSocket("s1", PageSync("a", "x", Num(1)));
    Engine.ScriptEmissionsAt([Engine.PageCommit("x", Num(1))], GetPage("s1", "a"));
    assert Engine.HookStep(pages, "s1", e.enter, EnterHook) == Run([commitX], throwInEnter);
    assert Engine.HookStep(pages, "s1", e.update, UpdateHook) == Run([], !throwInEnter);
    assert SyncResetPages(e) == ["a", "b"];
  }
}
