/** The session coordinator of server.js as a pure state machine: the three
    module-level variables (server.js:32-34), what each client event does to
    them and which pushes it broadcasts (server.js:50-160), the snapshot a
    newly connected observer receives (server.js:217-228), and what an
    observer that follows the pushes can conclude about the session. */
module SessionSpec {
  import opened Wrappers
  import opened JsStrings
  import opened Protocol
  import opened Attribution

  /** `clientStatus`, `qrCodeData`, and whether `whatsappClient` is set. */
  datatype Session = Session(status: Status, qr: Option<string>, clientPresent: bool)

  /** The state at process start. */
  const Initial: Session := Session(Disconnected, None, false)

  /** The new state after an event, and the pushes broadcast with `io.emit`, in order. */
  datatype Transition = Transition(next: Session, emitted: seq<Push>)

  /** What the source keeps true of the QR field: a status of `ready` or
      `disconnected` comes with no stored QR, and status `qr` with one. */
  ghost predicate Coherent(s: Session)
  {
    (s.status == Ready || s.status == Disconnected ==> s.qr == None) &&
    (s.status == Qr ==> s.qr.Some?)
  }

  /** The effect of one client event, its handler run to completion. */
  function Step(s: Session, e: ClientEvent): (t: Transition)
    ensures Coherent(s) ==> Coherent(t.next)
    ensures t.next.clientPresent ==> s.clientPresent
    ensures e.IsContent() || e.OnLoadingScreen? ==> t.next == s
    ensures e.OnQr? || t.next.qr == s.qr || t.next.qr == None
    ensures !e.IsContent() ==> |t.emitted| > 0
  {
    match e
    case OnQr(code, image) =>
      Transition(s.(status := Qr, qr := Some(code)), [QrPush(image, code)])
    case OnReady =>
      Transition(s.(status := Ready, qr := None), [ReadyPush, StatusPush(Ready)])
    case OnAuthenticated =>
      Transition(s.(status := Authenticated), [AuthenticatedPush, StatusPush(Authenticated)])
    case OnAuthFailure(failure) =>
      Transition(s.(status := AuthFailure), [AuthFailurePush(failure), StatusPush(AuthFailure)])
    case OnDisconnected(reason) =>
      Transition(Session(Disconnected, None, false), [DisconnectedPush(reason), StatusPush(Disconnected)])
    case OnLoadingScreen(percent, text) =>
      Transition(s, [LoadingPush(percent, text)])
    case OnMessage(m, lookup) =>
      Transition(s, [ReceivedPush(m, lookup)])
    case OnMessageCreate(m, lookup) =>
      Transition(s, SentPushes(m, lookup))
  }

  /** The state after a sequence of client events. */
  function Replay(s: Session, es: seq<ClientEvent>): Session
    decreases |es|
  {
    if es == [] then s else Replay(Step(s, es[0]).next, es[1..])
  }

  /** Everything broadcast while a sequence of client events is handled. */
  function Broadcast(s: Session, es: seq<ClientEvent>): seq<Push>
    decreases |es|
  {
    if es == [] then [] else Step(s, es[0]).emitted + Broadcast(Step(s, es[0]).next, es[1..])
  }

  /** The lifecycle events of a sequence, with the message hooks left out. */
  function Lifecycle(es: seq<ClientEvent>): (ls: seq<ClientEvent>)
    ensures |ls| <= |es|
    ensures forall i :: 0 <= i < |ls| ==> !ls[i].IsContent()
    decreases |es|
  {
    if es == [] then []
    else if es[0].IsContent() then Lifecycle(es[1..])
    else [es[0]] + Lifecycle(es[1..])
  }

  /** The pushes a newly connected socket receives (server.js:220-228): the
      status, then the QR only when one is stored and the status is `qr`. */
  function ResyncPushes(s: Session, image: Option<string>): (ps: seq<Push>)
    ensures |ps| > 0 && ps[0] == StatusPush(s.status)
    ensures |ps| == if Truthy(s.qr) && s.status == Qr then 2 else 1
    ensures (exists i :: 0 <= i < |ps| && ps[i].QrPush?) <==> Truthy(s.qr) && s.status == Qr
    ensures forall i :: 0 <= i < |ps| && ps[i].QrPush? ==> ps[i] == QrPush(image, s.qr.value)
    ensures s.status == Ready ==> forall i :: 0 <= i < |ps| ==> !ps[i].QrPush?
  {
    var ps := [StatusPush(s.status)] + if Truthy(s.qr) && s.status == Qr then [QrPush(image, s.qr.value)] else [];
    assert Truthy(s.qr) && s.status == Qr ==> ps[1].QrPush?;
    ps
  }

  /** The status an observer believes after one push: a `status` push names
      it, a `qr` push means status `qr`, every other push leaves it. This is
      an idealised observer that tracks the server's `clientStatus`; it is not
      the rule of the browser page, which also shows a `loading` state on a
      `loading` push and clears its QR on `authenticated` and `auth_failure`. */
  function Observe(believed: Status, p: Push): Status
  {
    match p
    case StatusPush(st) => st
    case QrPush(_, _) => Qr
    case _ => believed
  }

  /** The status an observer believes after a sequence of pushes. */
  function Tracked(believed: Status, ps: seq<Push>): Status
    decreases |ps|
  {
    if ps == [] then believed else Tracked(Observe(believed, ps[0]), ps[1..])
  }

  /** Following two runs of pushes in turn is following their concatenation. */
  lemma {:induction false} TrackedConcat(believed: Status, a: seq<Push>, b: seq<Push>)
    ensures Tracked(believed, a + b) == Tracked(Tracked(believed, a), b)
    decreases |a|
  {
    if a == [] {
      assert a + b == b;
    } else {
      assert (a + b)[1..] == a[1..] + b;
      TrackedConcat(Observe(believed, a[0]), a[1..], b);
    }
  }

  /** The pushes of one event bring an observer that knew the old status to the new one. */
  lemma StepTracked(s: Session, e: ClientEvent)
    ensures Tracked(s.status, Step(s, e).emitted) == Step(s, e).next.status
  {
    var em := Step(s, e).emitted;
    if |em| > 1 {
      assert |em| == 2 && em[1..][1..] == [];
      assert Tracked(s.status, em) == Tracked(Observe(s.status, em[0]), em[1..]);
      assert Tracked(Observe(s.status, em[0]), em[1..]) == Observe(Observe(s.status, em[0]), em[1]);
    }
  }

  /** Coherence is kept by every sequence of client events. */
  lemma {:induction false} ReplayCoherent(s: Session, es: seq<ClientEvent>)
    requires Coherent(s)
    ensures Coherent(Replay(s, es))
    decreases |es|
  {
    if es != [] {
      ReplayCoherent(Step(s, es[0]).next, es[1..]);
    }
  }

  /** No client event creates a client: only initialize does. */
  lemma {:induction false} ReplayNeverCreatesClient(s: Session, es: seq<ClientEvent>)
    ensures Replay(s, es).clientPresent ==> s.clientPresent
    decreases |es|
  {
    if es != [] {
      ReplayNeverCreatesClient(Step(s, es[0]).next, es[1..]);
    }
  }

  /** The session state after a run of events does not depend on the message
      events interleaved with the lifecycle events. */
  lemma {:induction false} ReplayIgnoresContent(s: Session, es: seq<ClientEvent>)
    ensures Replay(s, es) == Replay(s, Lifecycle(es))
    decreases |es|
  {
    if es != [] {
      ReplayIgnoresContent(Step(s, es[0]).next, es[1..]);
      if !es[0].IsContent() {
        var ls := [es[0]] + Lifecycle(es[1..]);
        assert ls[0] == es[0] && ls[1..] == Lifecycle(es[1..]);
      }
    }
  }

  /** An observer that knew the status when a run of events began, and
      receives every push broadcast during it, ends knowing the current status. */
  lemma {:induction false} ObserverTracksStatus(s: Session, es: seq<ClientEvent>)
    ensures Tracked(s.status, Broadcast(s, es)) == Replay(s, es).status
    decreases |es|
  {
    if es != [] {
      var t := Step(s, es[0]);
      TrackedConcat(s.status, t.emitted, Broadcast(t.next, es[1..]));
      StepTracked(s, es[0]);
      ObserverTracksStatus(t.next, es[1..]);
    }
  }

  /** An observer joining at any point, whatever it believed before, learns
      the current status from the snapshot and then keeps up with the
      broadcasts: the late joiner needs no history. */
  lemma LateJoinerTracksStatus(s: Session, image: Option<string>, es: seq<ClientEvent>, believed: Status)
    ensures Tracked(believed, ResyncPushes(s, image) + Broadcast(s, es)) == Replay(s, es).status
  {
    var r := ResyncPushes(s, image);
    TrackedConcat(believed, r, Broadcast(s, es));
    assert Tracked(believed, r) == s.status by {
      assert Tracked(believed, r) == Tracked(s.status, r[1..]);
      if |r| > 1 {
        assert r[1].QrPush?;
        assert r[1..][1..] == [];
      }
    }
    ObserverTracksStatus(s, es);
  }

  /** Authentication does not clear the stored QR: right after a QR is issued
      and the session authenticates, the QR is still stored. */
  lemma QrSurvivesAuthentication(s: Session, code: string, image: Option<string>, failure: string)
    ensures Replay(s, [OnQr(code, image), OnAuthenticated]) == s.(status := Authenticated, qr := Some(code))
    ensures Replay(s, [OnQr(code, image), OnAuthFailure(failure)]) == s.(status := AuthFailure, qr := Some(code))
  {
    var afterQr := s.(status := Qr, qr := Some(code));
    var es := [OnQr(code, image), OnAuthenticated];
    assert es[1..] == [OnAuthenticated] && es[1..][1..] == [];
    assert Replay(s, es) == Replay(afterQr, [OnAuthenticated]);
    var fs := [OnQr(code, image), OnAuthFailure(failure)];
    assert fs[1..] == [OnAuthFailure(failure)] && fs[1..][1..] == [];
    assert Replay(s, fs) == Replay(afterQr, [OnAuthFailure(failure)]);
    assert Replay(afterQr, [OnAuthFailure(failure)]) == Replay(Step(afterQr, OnAuthFailure(failure)).next, []);
  }
}
