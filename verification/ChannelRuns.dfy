/** Ledgers over whole runs of the channel layer. A ledger is kept per channel from what an
    observer of the connection sees: the messages that come in and the messages that go out. The
    theorems relate it to the state the channel layer keeps. */
module ChannelRuns {
  import opened Bytes
  import opened Transport
  import opened Channels

  datatype Event =
    | DoOpen(session: bool, sender: u32, window: u32, maximum: u32)
    | DoRequest(id: u32, kind: RequestKind, wantReply: bool, banner: Option<bytes>)
    | DoAdjust(id: u32, n: u32)
    | DoData(id: u32, data: bytes)
    | DoEof(id: u32)
    | DoClose(id: u32, now: nat)
    | DoPoll(answers: Answers)

  /** The session passes a banner only along with a pty request. */
  predicate Proper(ev: Event) {
    ev.DoRequest? && ev.banner.Some? ==> ev.kind.PtyReq?
  }

  ghost function Step(t: Table, ev: Event): Reaction {
    match ev
    case DoOpen(session, sender, window, maximum) => Ok(Open(t, session, sender, window, maximum))
    case DoRequest(id, kind, wantReply, banner) => Request(t, id, kind, wantReply, banner)
    case DoAdjust(id, n) => AdjustWindow(t, id, n)
    case DoData(id, data) => ReceiveData(t, id, data)
    case DoEof(id) => ReceiveEof(t, id)
    case DoClose(id, now) => Ok(ReceiveClose(t, id, now))
    case DoPoll(answers) => PollTerminals(t, answers)
  }

  // Ledgers

  /** The order a channel's output must follow: data, then end of file, then an exit status, then
      a close, all of them optional. */
  datatype Phase = Flowing | Ended | Reported | Closed | Broken

  /** `initial`, `adjusts` and `sent` account for what we may send, less what saturation lost
      (`capped`); `granted` and `accepted` for what the peer may send, less what was outstanding
      when a shell grant replaced the window (`overlap`). `latePty` tells that a terminal was asked
      for when the output had already ended. */
  datatype Ledger = Ledger(
    initial: int, adjusts: int, capped: int, sent: int,
    granted: int, accepted: int, overlap: int,
    closes: nat, exitAfterClose: bool, phase: Phase, latePty: bool)

  type Ledgers = map<u32, Ledger>

  function Fresh(window: u32): Ledger {
    Ledger(window, 0, 0, 0, 0, 0, 0, 0, false, Flowing, false)
  }

  function Available(l: Ledger): int { l.initial + l.adjusts - l.capped - l.sent }
  function Outstanding(l: Ledger): int { l.granted - l.accepted - l.overlap }

  function Target(ev: Event): Option<u32> {
    if ev.DoOpen? || ev.DoPoll? then None else Some(ev.id)
  }

  /** An incoming message enters the books of its channel. */
  function Heard(l: Ledger, ev: Event): Ledger {
    match ev
    case DoAdjust(_, n) =>
      var over := Available(l) + n - U32_MAX;
      l.(adjusts := l.adjusts + n, capped := l.capped + if over > 0 then over else 0)
    case DoData(_, data) => l.(accepted := l.accepted + |data|)
    case DoRequest(_, PtyReq, _, _) => l.(latePty := l.latePty || l.phase != Flowing)
    case DoRequest(_, Shell(_), _, _) => l.(overlap := l.overlap + Outstanding(l))
    case _ => l
  }

  function Advance(phase: Phase, m: Message): Phase {
    match m
    case Data(_) => if phase == Flowing then Flowing else Broken
    case Eof => if phase == Flowing then Ended else Broken
    case ExitStatus(_) => if phase == Ended then Reported else Broken
    case Close => if phase == Closed || phase == Broken then Broken else Closed
    case _ => phase
  }

  /** So does a message we send. */
  function Said(l: Ledger, m: Message): Ledger {
    var p := l.(phase := Advance(l.phase, m));
    match m
    case WindowAdjust(n) => p.(granted := l.granted + n)
    case Data(data) => p.(sent := l.sent + |data|)
    case ExitStatus(_) => p.(exitAfterClose := l.exitAfterClose || l.closes > 0)
    case Close => p.(closes := l.closes + 1)
    case _ => p
  }

  function RecordOut(ls: Ledgers, ev: Event, out: Out): Ledgers {
    if out.Refused? then ls
    else if out.message == Confirmation then
      ls[out.local := Fresh(if ev.DoOpen? then ev.window else 0)]
    else if out.local !in ls then ls
    else ls[out.local := Said(ls[out.local], out.message)]
  }

  function RecordOuts(ls: Ledgers, ev: Event, outs: seq<Out>): Ledgers
    decreases |outs|
  {
    if outs == [] then ls else RecordOuts(RecordOut(ls, ev, outs[0]), ev, outs[1..])
  }

  lemma RecordOne(ls: Ledgers, ev: Event, out: Out)
    ensures RecordOuts(ls, ev, [out]) == RecordOut(ls, ev, out)
  {
    assert [out][1..] == [];
    assert RecordOuts(RecordOut(ls, ev, out), ev, []) == RecordOut(ls, ev, out);
  }

  function RecordIn(ls: Ledgers, ev: Event): Ledgers {
    if Target(ev).None? || Target(ev).value !in ls then ls
    else ls[Target(ev).value := Heard(ls[Target(ev).value], ev)]
  }

  function Record(ls: Ledgers, ev: Event, outs: seq<Out>): Ledgers {
    RecordOuts(RecordIn(ls, ev), ev, outs)
  }

  /** A run and its books; `None` once the session has ended with an error. */
  ghost function RunEvents(t: Table, ls: Ledgers, evs: seq<Event>): Option<(Table, Ledgers)>
    decreases |evs|
  {
    if evs == [] then Some((t, ls)) else
    match Step(t, evs[0])
    case Err(_) => None
    case Ok((t', outs)) => RunEvents(t', Record(ls, evs[0], outs), evs[1..])
  }

  // The invariant

  /** Windows are exactly what the books say. */
  predicate Balanced(c: Channel, l: Ledger) {
    && c.sendWindow == Available(l)
    && c.receiveWindow == Outstanding(l) <= INITIAL_WINDOW_SIZE
    && l.capped >= 0 && l.overlap >= 0
    && l.closes == (if c.closeSent then 1 else 0) && !l.exitAfterClose
  }

  /** While the order holds, the terminal's state and the close tell how far the output has got;
      only a running terminal may be at odds with it. */
  predicate Coherent(c: Channel, l: Ledger) {
    l.phase != Broken ==>
      && (l.phase == Closed <==> c.closeSent)
      && match c.terminal
         case Some(Exiting(_)) => l.phase == Ended
         case Some(Exited(_)) => l.phase == Ended
         case Some(Reaping(_)) => l.phase == Closed
         case Some(Closing) => l.phase != Flowing
         case _ => true
  }

  /** As long as no terminal was asked for too late, none is requested or running too late. */
  predicate Punctual(c: Channel, l: Ledger) {
    !l.latePty ==>
      && l.phase != Broken
      && (c.terminal.None? || c.terminal.value.Requested? || c.terminal.value.Running? ==> l.phase == Flowing)
  }

  predicate Good(c: Channel, l: Ledger) {
    Balanced(c, l) && Coherent(c, l) && Punctual(c, l)
  }

  /** What holds of a ledger for ever, also after its channel is gone. */
  predicate Sound(l: Ledger) {
    && l.sent <= l.initial + l.adjusts && l.accepted <= l.granted
    && l.closes <= 1 && !l.exitAfterClose && (!l.latePty ==> l.phase != Broken)
  }

  ghost predicate Inv(t: Table, ls: Ledgers) {
    && (forall k :: k in t.channels ==> k in ls && Good(t.channels[k], ls[k]))
    && (forall k :: k in ls ==> Sound(ls[k]))
  }

  lemma GoodIsSound(c: Channel, l: Ledger)
    requires Good(c, l)
    ensures Sound(l)
  {
  }

  lemma InvSet(t: Table, ls: Ledgers, id: u32, c: Channel, l: Ledger)
    requires Inv(t, ls) && Good(c, l)
    ensures Inv(Set(t, id, c), ls[id := l])
  {
    GoodIsSound(c, l);
  }

  lemma InvRemove(t: Table, ls: Ledgers, id: u32, l: Ledger)
    requires Inv(t, ls) && Sound(l)
    ensures Inv(t.(channels := t.channels - {id}), ls[id := l])
  {
  }

  // One channel at a time

  /** The end of a granted request keeps the books, whether or not there is a banner. */
  lemma GrantedGood(c: Channel, id: u32, wantReply: bool, banner: Option<bytes>, l: Ledger)
    requires Good(c, l) && (banner.Some? ==> c.terminal == Some(Requested))
    ensures var (d, outs) := Granted(c, id, wantReply, banner);
            Good(d, Books(l, id, outs)) && OnlyOn(id, outs)
  {
    var (d, outs) := Granted(c, id, wantReply, banner);
    var reply := On(id, c.remoteId, Success);
    assert [reply][1..] == [];
    if banner.Some? && |banner.value| <= c.sendWindow {
      var data := On(id, c.remoteId, Data(banner.value));
      assert [data][1..] == [] && [reply, data][1..] == [data];
      assert Books(l, id, [data]) == Books(Said(l, data.message), id, []);
      assert Books(l, id, outs) == Said(l, data.message);
    }
  }

  /** All messages concern channel `id`, and none opens it. */
  predicate OnlyOn(id: u32, outs: seq<Out>) {
    forall i :: 0 <= i < |outs| ==> outs[i].On? && outs[i].local == id && outs[i].message != Confirmation
  }

  /** The ledger of one channel after a list of messages on it. */
  function Books(l: Ledger, id: u32, outs: seq<Out>): Ledger
    decreases |outs|
  {
    if outs == [] then l
    else Books(if outs[0].On? then Said(l, outs[0].message) else l, id, outs[1..])
  }

  lemma {:induction false} RecordedBooks(ls: Ledgers, ev: Event, id: u32, outs: seq<Out>)
    requires id in ls && OnlyOn(id, outs)
    ensures RecordOuts(ls, ev, outs) == ls[id := Books(ls[id], id, outs)]
    decreases |outs|
  {
    if outs == [] {
      assert ls[id := ls[id]] == ls;
    } else {
      RecordedBooks(RecordOut(ls, ev, outs[0]), ev, id, outs[1..]);
    }
  }

  /** A step that touches one channel keeps the invariant if it keeps that channel's books. */
  lemma InvTouched(t: Table, ls: Ledgers, ev: Event, id: u32, c: Channel, outs: seq<Out>)
    requires Inv(t, ls) && id in t.channels && Target(ev) == Some(id) && OnlyOn(id, outs)
    requires Good(c, Books(Heard(ls[id], ev), id, outs))
    ensures Inv(Set(t, id, c), Record(ls, ev, outs))
  {
    var l := Books(Heard(ls[id], ev), id, outs);
    RecordedBooks(RecordIn(ls, ev), ev, id, outs);
    assert Record(ls, ev, outs) == ls[id := l];
    InvSet(t, ls, id, c, l);
  }

  lemma SetSame(t: Table, id: u32)
    requires id in t.channels
    ensures Set(t, id, t.channels[id]) == t
  {
  }

  lemma OpenKeeps(t: Table, ls: Ledgers, ev: Event)
    requires Inv(t, ls) && ev.DoOpen?
    ensures Step(t, ev).Ok? && Inv(Step(t, ev).value.0, Record(ls, ev, Step(t, ev).value.1))
  {
    var (t', outs) := Open(t, ev.session, ev.sender, ev.window, ev.maximum);
    RecordOne(ls, ev, outs[0]);
    assert outs == [outs[0]];
    if ev.session && t.nextId !in t.channels {
      var id := t.nextId;
      var c := Channel(ev.sender, ev.window, 0, ev.maximum, 0, None, false);
      var next := t.(nextId := (t.nextId + 1) % U32);
      assert Inv(next, ls);
      InvSet(next, ls, id, c, Fresh(ev.window));
    }
  }

  lemma RequestKeeps(t: Table, ls: Ledgers, ev: Event)
    requires Inv(t, ls) && ev.DoRequest? && Proper(ev) && Step(t, ev).Ok?
    ensures Inv(Step(t, ev).value.0, Record(ls, ev, Step(t, ev).value.1))
  {
    hide Granted, Record, RecordIn, Good;
    var id := ev.id;
    var c, l := t.channels[id], Heard(ls[id], ev);
    if ev.kind.OtherRequest? || (ev.kind.Env? && (!ev.kind.allowed || c.env >= MAX_ENV)) {
      var outs := Denied(c, id, ev.wantReply);
      if ev.wantReply { assert outs[1..] == []; }
      SetSame(t, id);
      InvTouched(t, ls, ev, id, c, outs);
    } else if ev.kind.Shell? {
      ShellKeeps(c, ls[id], ev);
      var running := c.(terminal := Some(Running), receiveWindow := INITIAL_WINDOW_SIZE);
      var (d, outs) := Granted(running, id, ev.wantReply, ev.banner);
      var adjust := On(id, c.remoteId, WindowAdjust(INITIAL_WINDOW_SIZE));
      assert ([adjust] + outs)[1..] == outs;
      InvTouched(t, ls, ev, id, d, [adjust] + outs);
    } else {
      PlainRequestKeeps(c, ls[id], ev);
      var asked := match ev.kind
        case PtyReq => c.(terminal := Some(Requested))
        case Env(_) => c.(env := c.env + 1)
        case _ => c;
      var (d, outs) := Granted(asked, id, ev.wantReply, ev.banner);
      InvTouched(t, ls, ev, id, d, outs);
    }
  }

  lemma ShellKeeps(c: Channel, l: Ledger, ev: Event)
    requires Good(c, l) && ev.DoRequest? && ev.kind.Shell? && Proper(ev)
    requires c.terminal == Some(Requested)
    ensures var running := c.(terminal := Some(Running), receiveWindow := INITIAL_WINDOW_SIZE);
            var (d, outs) := Granted(running, ev.id, ev.wantReply, ev.banner);
            && Good(d, Books(Said(Heard(l, ev), WindowAdjust(INITIAL_WINDOW_SIZE)), ev.id, outs))
            && OnlyOn(ev.id, outs)
  {
    hide Granted;
    var running := c.(terminal := Some(Running), receiveWindow := INITIAL_WINDOW_SIZE);
    GrantedGood(running, ev.id, ev.wantReply, ev.banner, Said(Heard(l, ev), WindowAdjust(INITIAL_WINDOW_SIZE)));
  }

  lemma PlainRequestKeeps(c: Channel, l: Ledger, ev: Event)
    requires Good(c, l) && ev.DoRequest? && (ev.kind.PtyReq? || ev.kind.Env? || ev.kind.WindowChange?) && Proper(ev)
    ensures var asked := match ev.kind
              case PtyReq => c.(terminal := Some(Requested))
              case Env(_) => c.(env := c.env + 1)
              case _ => c;
            var (d, outs) := Granted(asked, ev.id, ev.wantReply, ev.banner);
            Good(d, Books(Heard(l, ev), ev.id, outs)) && OnlyOn(ev.id, outs)
  {
    hide Granted;
    var asked := match ev.kind
      case PtyReq => c.(terminal := Some(Requested))
      case Env(_) => c.(env := c.env + 1)
      case _ => c;
    GrantedGood(asked, ev.id, ev.wantReply, ev.banner, Heard(l, ev));
  }

  lemma AdjustKeeps(t: Table, ls: Ledgers, ev: Event)
    requires Inv(t, ls) && ev.DoAdjust? && Step(t, ev).Ok?
    ensures Inv(Step(t, ev).value.0, Record(ls, ev, Step(t, ev).value.1))
  {
    var c := t.channels[ev.id];
    InvTouched(t, ls, ev, ev.id, c.(sendWindow := SaturatingAdd(c.sendWindow, ev.n)), []);
  }

  lemma DataKeeps(t: Table, ls: Ledgers, ev: Event)
    requires Inv(t, ls) && ev.DoData? && Step(t, ev).Ok?
    ensures Inv(Step(t, ev).value.0, Record(ls, ev, Step(t, ev).value.1))
  {
    var (t', outs) := Step(t, ev).value;
    if outs != [] { assert outs[1..] == []; }
    InvTouched(t, ls, ev, ev.id, t'.channels[ev.id], outs);
  }

  lemma EofKeeps(t: Table, ls: Ledgers, ev: Event)
    requires Inv(t, ls) && ev.DoEof? && Step(t, ev).Ok?
    ensures Inv(Step(t, ev).value.0, Record(ls, ev, Step(t, ev).value.1))
  {
    SetSame(t, ev.id);
    InvTouched(t, ls, ev, ev.id, t.channels[ev.id], []);
  }

  lemma CloseKeeps(t: Table, ls: Ledgers, ev: Event)
    requires Inv(t, ls) && ev.DoClose? && Step(t, ev).Ok?
    ensures Inv(Step(t, ev).value.0, Record(ls, ev, Step(t, ev).value.1))
  {
    var id := ev.id;
    var (t', outs) := Step(t, ev).value;
    if outs != [] { assert outs[1..] == []; }
    if id in t.channels {
      if id in t'.channels {
        InvTouched(t, ls, ev, id, t'.channels[id], outs);
      } else {
        RecordedBooks(RecordIn(ls, ev), ev, id, outs);
        var l := Books(Heard(ls[id], ev), id, outs);
        assert Record(ls, ev, outs) == ls[id := l];
        InvRemove(t, ls, id, l);
      }
    } else if id in ls {
      assert RecordIn(ls, ev) == ls;
    }
  }

  /** One channel's share of a poll keeps its books, whatever the terminal answers. */
  lemma {:induction false} PollChannelGood(c: Channel, id: u32, a: Answers, l: Ledger)
    requires Good(c, l)
    ensures var (d, v) := PollChannel(c, id, a);
            && (v.Continue? ==> Good(d, l))
            && (v.Emit? ==> Good(d, Said(l, v.message)) && v.message != Confirmation)
            && d.remoteId == c.remoteId
    decreases Rank(c.terminal)
  {
    match c.terminal
    case Some(Exiting(_)) =>
      match a.wait(id) {
        case WaitPending =>
        case WaitError => PollChannelGood(c.(terminal := Some(Closing)), id, a, l);
        case WaitDone(None) => PollChannelGood(c.(terminal := Some(Closing)), id, a, l);
        case WaitDone(Some(code)) => PollChannelGood(c.(terminal := Some(Exited(code % U32))), id, a, l);
      }
    case Some(Exited(_)) =>
      if c.closeSent {
        PollChannelGood(c.(terminal := Some(Closing)), id, a, l);
      }
    case _ =>
  }

  lemma {:induction false} PollFromKeeps(t: Table, ls: Ledgers, pending: set<u32>, a: Answers, ev: Event)
    requires Inv(t, ls) && pending <= t.channels.Keys && ev.DoPoll? && PollFrom(t, pending, a).Ok?
    ensures var (t', outs) := PollFrom(t, pending, a).value;
            |outs| <= 1 && Inv(t', Record(ls, ev, outs))
    decreases |pending|
  {
    hide Good, PollChannel;
    if pending != {} {
      var id := Least(pending);
      var c := t.channels[id];
      PollChannelGood(c, id, a, ls[id]);
      var (d, v) := PollChannel(c, id, a);
      match v
      case Continue =>
        assert ls[id := ls[id]] == ls;
        InvSet(t, ls, id, d, ls[id]);
        PollFromKeeps(Set(t, id, d), ls, pending - {id}, a, ev);
      case Emit(message) =>
        RecordOne(ls, ev, On(id, d.remoteId, message));
        InvSet(t, ls, id, d, Said(ls[id], message));
      case Remove =>
        assert ls[id := ls[id]] == ls;
        InvRemove(t, ls, id, ls[id]);
      case Abort =>
    }
  }

  lemma StepKeeps(t: Table, ls: Ledgers, ev: Event)
    requires Inv(t, ls) && Proper(ev) && Step(t, ev).Ok?
    ensures Inv(Step(t, ev).value.0, Record(ls, ev, Step(t, ev).value.1))
  {
    hide Inv, Record, Open, Request, AdjustWindow, ReceiveData, ReceiveEof, ReceiveClose, PollFrom;
    match ev
    case DoOpen(_, _, _, _) => OpenKeeps(t, ls, ev);
    case DoRequest(_, _, _, _) => RequestKeeps(t, ls, ev);
    case DoAdjust(_, _) => AdjustKeeps(t, ls, ev);
    case DoData(_, _) => DataKeeps(t, ls, ev);
    case DoEof(_) => EofKeeps(t, ls, ev);
    case DoClose(_, _) => CloseKeeps(t, ls, ev);
    case DoPoll(answers) => PollFromKeeps(t, ls, t.channels.Keys, answers, ev);
  }

  lemma {:induction false} RunKeeps(t: Table, ls: Ledgers, evs: seq<Event>)
    requires Inv(t, ls) && RunEvents(t, ls, evs).Some?
    requires forall i :: 0 <= i < |evs| ==> Proper(evs[i])
    ensures Inv(RunEvents(t, ls, evs).value.0, RunEvents(t, ls, evs).value.1)
    decreases |evs|
  {
    hide Inv, Record, Step;
    if evs != [] {
      StepKeeps(t, ls, evs[0]);
      var (t', outs) := Step(t, evs[0]).value;
      RunKeeps(t', Record(ls, evs[0], outs), evs[1..]);
    }
  }

  // The theorems, for every run from an empty table

  ghost predicate Reachable(t: Table, ls: Ledgers, evs: seq<Event>) {
    && (forall i :: 0 <= i < |evs| ==> Proper(evs[i]))
    && RunEvents(EMPTY, map[], evs) == Some((t, ls))
  }

  lemma ReachableInv(t: Table, ls: Ledgers, evs: seq<Event>)
    requires Reachable(t, ls, evs)
    ensures Inv(t, ls)
  {
    RunKeeps(EMPTY, map[], evs);
  }

  lemma {:induction false} RunSnoc(t: Table, ls: Ledgers, evs: seq<Event>, ev: Event)
    ensures RunEvents(t, ls, evs + [ev]).Some? <==>
              RunEvents(t, ls, evs).Some? && Step(RunEvents(t, ls, evs).value.0, ev).Ok?
    ensures RunEvents(t, ls, evs + [ev]).Some? ==>
              var (u, ms) := RunEvents(t, ls, evs).value;
              var (u', outs) := Step(u, ev).value;
              RunEvents(t, ls, evs + [ev]) == Some((u', Record(ms, ev, outs)))
    decreases |evs|
  {
    hide Step, Record;
    if evs == [] {
      assert evs + [ev] == [ev];
      assert [ev][1..] == [];
    } else {
      assert (evs + [ev])[1..] == evs[1..] + [ev];
      if Step(t, evs[0]).Ok? {
        var (t', outs) := Step(t, evs[0]).value;
        RunSnoc(t', Record(ls, evs[0], outs), evs[1..], ev);
      }
    }
  }

  /** Every step of a reachable state leads to a reachable state. */
  lemma ReachableStep(t: Table, ls: Ledgers, evs: seq<Event>, ev: Event)
    requires Reachable(t, ls, evs) && Proper(ev) && Step(t, ev).Ok?
    ensures Reachable(Step(t, ev).value.0, Record(ls, ev, Step(t, ev).value.1), evs + [ev])
  {
    hide Step, Record, RunEvents, Proper;
    RunSnoc(EMPTY, map[], evs, ev);
  }

  /** A run that is not empty is a shorter run and a step. */
  lemma LastStep(t: Table, ls: Ledgers, evs: seq<Event>) returns (u: Table, ms: Ledgers)
    requires Reachable(t, ls, evs) && evs != []
    ensures var n := |evs| - 1;
            && Reachable(u, ms, evs[..n]) && Proper(evs[n]) && Step(u, evs[n]).Ok?
            && (t, ls) == (Step(u, evs[n]).value.0, Record(ms, evs[n], Step(u, evs[n]).value.1))
  {
    hide Step, Record, RunEvents, Proper;
    var n := |evs| - 1;
    assert evs == evs[..n] + [evs[n]];
    RunSnoc(EMPTY, map[], evs[..n], evs[n]);
    u, ms := RunEvents(EMPTY, map[], evs[..n]).value.0, RunEvents(EMPTY, map[], evs[..n]).value.1;
  }

  /** Receive window: it never exceeds its initial size, nor the credit granted less the bytes
      accepted, and the difference is exactly the credit still outstanding when a shell grant
      replaced the window instead of adding to it. The two agree exactly when every shell granted
      on the channel since it was opened found the window empty. */
  lemma ReceiveWindowLedger(t: Table, ls: Ledgers, evs: seq<Event>, k: u32)
    requires Reachable(t, ls, evs) && k in t.channels
    ensures k in ls
    ensures var c, l := t.channels[k], ls[k];
            && c.receiveWindow <= INITIAL_WINDOW_SIZE && c.receiveWindow <= l.granted - l.accepted
            && c.receiveWindow == l.granted - l.accepted - l.overlap
            && (c.receiveWindow == l.granted - l.accepted <==> SinceOpening(evs, k, GrantsFindEmpty))
  {
    hide RunEvents, SinceOpening;
    ReachableInv(t, ls, evs);
    assert Good(t.channels[k], ls[k]);
    SumsExactly(t, ls, evs, k);
  }

  /** Send window: what was sent and what may still be sent add up to what the peer allowed,
      less what saturation dropped. Nothing was dropped exactly when every adjustment since the
      channel was opened fitted. */
  lemma SendWindowLedger(t: Table, ls: Ledgers, evs: seq<Event>, k: u32)
    requires Reachable(t, ls, evs) && k in t.channels
    ensures k in ls
    ensures var c, l := t.channels[k], ls[k];
            && l.sent + c.sendWindow <= l.initial + l.adjusts
            && l.sent + c.sendWindow + l.capped == l.initial + l.adjusts
            && (l.sent + c.sendWindow == l.initial + l.adjusts <==> SinceOpening(evs, k, AdjustsFit))
  {
    hide RunEvents, SinceOpening;
    ReachableInv(t, ls, evs);
    assert Good(t.channels[k], ls[k]);
    SumsExactly(t, ls, evs, k);
  }

  /** Output order, for every channel ever opened and also after it is gone: at most one close,
      no exit status after it, and, unless the peer asked for a terminal when the output had
      already ended, data, end of file, exit status and close in that order. */
  lemma ChannelOutputOrder(t: Table, ls: Ledgers, evs: seq<Event>, k: u32)
    requires Reachable(t, ls, evs) && k in ls
    ensures ls[k].closes <= 1 && !ls[k].exitAfterClose
    ensures !ls[k].latePty ==> ls[k].phase != Broken
  {
    ReachableInv(t, ls, evs);
    assert Sound(ls[k]);
  }

  /** Data is accepted exactly when it fits the window, and leaves at least half a window. */
  lemma DataWithinWindow(t: Table, ls: Ledgers, evs: seq<Event>, id: u32, data: bytes)
    requires Reachable(t, ls, evs)
    ensures ReceiveData(t, id, data).Ok? <==> id in t.channels && |data| <= t.channels[id].receiveWindow
    ensures ReceiveData(t, id, data).Ok? ==>
              INITIAL_WINDOW_SIZE / 2 <= ReceiveData(t, id, data).value.0.channels[id].receiveWindow
              <= INITIAL_WINDOW_SIZE
  {
    hide RunEvents;
    ReachableInv(t, ls, evs);
    assert id in t.channels ==> Good(t.channels[id], ls[id]);
  }

  /** A data packet from the terminal fits the maximum packet size, the window and the read
      buffer, so the saturating subtraction never saturates. */
  lemma {:induction false} TerminalDataFits(c: Channel, id: u32, a: Answers)
    ensures var (d, v) := PollChannel(c, id, a);
            v.Emit? && v.message.Data? ==>
              var n := |v.message.data|;
              && 0 < n <= c.maximumPacketSize && n <= c.sendWindow && n <= READ_BUFFER
              && d.sendWindow == c.sendWindow - n
    decreases Rank(c.terminal)
  {
    match c.terminal
    case Some(Exiting(_)) =>
      match a.wait(id) {
        case WaitPending =>
        case WaitError => TerminalDataFits(c.(terminal := Some(Closing)), id, a);
        case WaitDone(None) => TerminalDataFits(c.(terminal := Some(Closing)), id, a);
        case WaitDone(Some(code)) => TerminalDataFits(c.(terminal := Some(Exited(code % U32))), id, a);
      }
    case Some(Exited(_)) => TerminalDataFits(c.(terminal := Some(Closing)), id, a);
    case _ =>
  }

  /** A poll of all terminals reports at most one message, and it is what the channel concerned
      reports on its own. */
  lemma {:induction false} PollReportsOnce(t: Table, pending: set<u32>, a: Answers)
    requires pending <= t.channels.Keys && PollFrom(t, pending, a).Ok?
    ensures var (t', outs) := PollFrom(t, pending, a).value;
            && |outs| <= 1 && t'.channels.Keys <= t.channels.Keys
            && (outs != [] ==> Reports(t, pending, a, outs[0]))
    decreases |pending|
  {
    hide PollChannel;
    if pending != {} {
      var id := Least(pending);
      var (d, v) := PollChannel(t.channels[id], id, a);
      SameRemote(t.channels[id], id, a);
      if v.Continue? {
        PollReportsOnce(Set(t, id, d), pending - {id}, a);
      }
    }
  }

  /** A message that a channel reports. */
  predicate Reports(t: Table, pending: set<u32>, a: Answers, out: Out) {
    out.On? && out.local in pending && out.local in t.channels && out.remote == t.channels[out.local].remoteId
    && PollChannel(t.channels[out.local], out.local, a).1 == Emit(out.message)
  }

  /** What a channel reports, by the state of its terminal. */
  lemma {:induction false} ReportedMessage(c: Channel, id: u32, a: Answers)
    requires PollChannel(c, id, a).1.Emit?
    ensures var m := PollChannel(c, id, a).1.message;
            if c.terminal == Some(Running) then m.Data? || m.Eof?
            else !c.closeSent && c.terminal.Some? && (m.Close? || m.ExitStatus?)
                 && (m.ExitStatus? ==> c.terminal.value.Exiting? || c.terminal.value.Exited?)
    decreases Rank(c.terminal)
  {
    match c.terminal
    case Some(Exiting(_)) =>
      match a.wait(id) {
        case WaitPending =>
        case WaitError => ReportedMessage(c.(terminal := Some(Closing)), id, a);
        case WaitDone(None) => ReportedMessage(c.(terminal := Some(Closing)), id, a);
        case WaitDone(Some(code)) => ReportedMessage(c.(terminal := Some(Exited(code % U32))), id, a);
      }
    case Some(Exited(_)) =>
      if c.closeSent {
        ReportedMessage(c.(terminal := Some(Closing)), id, a);
      }
    case _ =>
  }

  // What a step says

  /** Only an open request confirms, and it confirms the channel it opens. */
  predicate Opens(t: Table, ev: Event, k: u32) {
    ev.DoOpen? && ev.session && t.nextId == k && k !in t.channels
  }

  predicate Quiet(outs: seq<Out>) {
    forall i :: 0 <= i < |outs| ==> outs[i].On? && outs[i].message != Confirmation
  }

  lemma StepSays(t: Table, ev: Event)
    requires Step(t, ev).Ok?
    ensures var (t', outs) := Step(t, ev).value;
            && (!ev.DoOpen? ==> Quiet(outs) && t'.channels.Keys <= t.channels.Keys)
            && (Target(ev).Some? ==> forall i :: 0 <= i < |outs| ==> outs[i].local == Target(ev).value)
  {
    hide PollFrom;
    if ev.DoPoll? {
      PollReportsOnce(t, t.channels.Keys, ev.answers);
      var (t', outs) := Step(t, ev).value;
      if outs != [] {
        assert outs == [outs[0]];
        ReportedQuietly(t, ev.answers, outs[0]);
      }
    }
  }

  lemma ReportedQuietly(t: Table, a: Answers, out: Out)
    requires Reports(t, t.channels.Keys, a, out)
    ensures out.message != Confirmation
  {
    hide PollChannel;
    ReportedMessage(t.channels[out.local], out.local, a);
  }

  // When the windows and the books differ

  /** What the events on a channel may keep to. */
  datatype Rule = GrantsFindEmpty | AdjustsFit

  predicate Obeys(rule: Rule, t: Table, ev: Event, k: u32) {
    match rule
    case GrantsFindEmpty =>
      ev.DoRequest? && ev.id == k && ev.kind.Shell? && k in t.channels ==> t.channels[k].receiveWindow == 0
    case AdjustsFit => ev.DoAdjust? && ev.id == k && k in t.channels ==> t.channels[k].sendWindow + ev.n <= U32_MAX
  }

  /** Every event of the run since channel `k` was last opened obeys the rule. */
  ghost predicate SinceOpening(evs: seq<Event>, k: u32, rule: Rule)
    requires RunEvents(EMPTY, map[], evs).Some?
    decreases |evs|
  {
    evs == [] ||
    var n := |evs| - 1;
    assert evs == evs[..n] + [evs[n]];
    RunSnoc(EMPTY, map[], evs[..n], evs[n]);
    var t := RunEvents(EMPTY, map[], evs[..n]).value.0;
    Opens(t, evs[n], k) || (Obeys(rule, t, evs[n], k) && SinceOpening(evs[..n], k, rule))
  }

  lemma {:induction false} OutsKeepSums(ls: Ledgers, ev: Event, outs: seq<Out>, k: u32)
    requires k in ls && (forall i :: 0 <= i < |outs| ==> outs[i].On? ==> outs[i].local == k ==>
                           outs[i].message != Confirmation)
    ensures k in RecordOuts(ls, ev, outs)
    ensures var m := RecordOuts(ls, ev, outs)[k];
            m.overlap == ls[k].overlap && m.capped == ls[k].capped
    decreases |outs|
  {
    if outs != [] {
      OutsKeepSums(RecordOut(ls, ev, outs[0]), ev, outs[1..], k);
    }
  }

  lemma OpenedFresh(t: Table, ls: Ledgers, ev: Event, k: u32)
    requires Opens(t, ev, k)
    ensures Record(ls, ev, Step(t, ev).value.1) == ls[k := Fresh(ev.window)]
  {
    RecordOne(ls, ev, On(k, ev.sender, Confirmation));
  }

  /** How one step moves the two sums. */
  lemma SumsAfter(t: Table, ls: Ledgers, ev: Event, k: u32)
    requires Step(t, ev).Ok? && !Opens(t, ev, k) && k in Step(t, ev).value.0.channels && Inv(t, ls)
    ensures k in t.channels && k in ls && k in Record(ls, ev, Step(t, ev).value.1)
    ensures var l := Record(ls, ev, Step(t, ev).value.1)[k];
            var heard := if Target(ev) == Some(k) then Heard(ls[k], ev) else ls[k];
            l.overlap == heard.overlap && l.capped == heard.capped
  {
    hide Step, Inv;
    StepSays(t, ev);
    StepKeys(t, ev, k);
    var outs := Step(t, ev).value.1;
    InvHas(t, ls, k);
    OutsKeepSums(RecordIn(ls, ev), ev, outs, k);
  }

  lemma InvHas(t: Table, ls: Ledgers, k: u32)
    requires Inv(t, ls) && k in t.channels
    ensures k in ls && Good(t.channels[k], ls[k])
  {
  }

  lemma StepKeys(t: Table, ev: Event, k: u32)
    requires Step(t, ev).Ok? && !Opens(t, ev, k) && k in Step(t, ev).value.0.channels
    ensures k in t.channels
    ensures ev.DoOpen? ==>
              forall i :: 0 <= i < |Step(t, ev).value.1| ==>
                var out := Step(t, ev).value.1[i];
                out.On? ==> out.local != k
  {
    hide PollFrom;
    StepSays(t, ev);
  }

  lemma {:induction false} SumsExactly(t: Table, ls: Ledgers, evs: seq<Event>, k: u32)
    requires Reachable(t, ls, evs) && k in t.channels && k in ls
    ensures ls[k].overlap == 0 <==> SinceOpening(evs, k, GrantsFindEmpty)
    ensures ls[k].capped == 0 <==> SinceOpening(evs, k, AdjustsFit)
    decreases |evs|
  {
    hide Step, Record, RunEvents, Inv, Balanced;
    NothingYet();
    var n := |evs| - 1;
    var u, ms := LastStep(t, ls, evs);
    ReachableInv(u, ms, evs[..n]);
    if Opens(u, evs[n], k) {
      OpenedFresh(u, ms, evs[n], k);
    } else {
      SumsAfter(u, ms, evs[n], k);
      SumsExactly(u, ms, evs[..n], k);
      InvHas(u, ms, k);
      SumsMove(u.channels[k], ms[k], evs[n]);
    }
  }

  lemma NothingYet()
    ensures RunEvents(EMPTY, map[], []) == Some((EMPTY, map[]))
  {
  }

  lemma SumsMove(c: Channel, l: Ledger, ev: Event)
    requires Balanced(c, l)
    ensures l.overlap >= 0 && l.capped >= 0
    ensures ev.DoRequest? && ev.kind.Shell? ==> Heard(l, ev).overlap == l.overlap + c.receiveWindow
    ensures ev.DoAdjust? ==>
              Heard(l, ev).capped
              == l.capped + if c.sendWindow + ev.n > U32_MAX then c.sendWindow + ev.n - U32_MAX else 0
    ensures !(ev.DoRequest? && ev.kind.Shell?) ==> Heard(l, ev).overlap == l.overlap
    ensures !ev.DoAdjust? ==> Heard(l, ev).capped == l.capped
  {
  }

  // Exactly when the order breaks

  predicate AsksForTerminal(ev: Event, k: u32) {
    ev.DoRequest? && ev.id == k && ev.kind.PtyReq?
  }

  /** The event brings a banner that the window has room for. */
  predicate SendsBanner(t: Table, ev: Event, k: u32) {
    AsksForTerminal(ev, k) && k in t.channels && ev.banner.Some? && |ev.banner.value| <= t.channels[k].sendWindow
  }

  /** The event is a poll in which channel `k` has something to report and no channel before it has. */
  predicate FirstToReport(t: Table, pending: set<u32>, a: Answers, k: u32) {
    && k in pending && k in t.channels && PollChannel(t.channels[k], k, a).1.Emit?
    && forall j :: j in pending && j < k && j in t.channels ==> PollChannel(t.channels[j], j, a).1.Continue?
  }

  /** The event is a poll in which the running terminal of channel `k` reports. */
  predicate TerminalReports(t: Table, ev: Event, k: u32) {
    && ev.DoPoll? && k in t.channels && t.channels[k].terminal == Some(Running)
    && FirstToReport(t, t.channels.Keys, ev.answers, k)
  }

  lemma {:induction false} ReportsIff(t: Table, pending: set<u32>, a: Answers, k: u32)
    requires pending <= t.channels.Keys && PollFrom(t, pending, a).Ok?
    ensures var outs := PollFrom(t, pending, a).value.1;
            FirstToReport(t, pending, a, k) <==> outs != [] && outs[0].On? && outs[0].local == k
    decreases |pending|
  {
    hide PollChannel;
    if pending != {} {
      var id := Least(pending);
      var (d, v) := PollChannel(t.channels[id], id, a);
      if v.Continue? {
        var u := Set(t, id, d);
        ReportsIff(u, pending - {id}, a, k);
        assert forall j :: j in pending - {id} ==> u.channels[j] == t.channels[j];
        assert FirstToReport(u, pending - {id}, a, k) <==> FirstToReport(t, pending, a, k);
      }
    }
  }

  /** The phase of a channel after a list of messages. */
  function PhaseAfter(phase: Phase, outs: seq<Out>, k: u32): Phase
    decreases |outs|
  {
    if outs == [] then phase
    else PhaseAfter(if outs[0].On? && outs[0].local == k then Advance(phase, outs[0].message) else phase, outs[1..], k)
  }

  lemma {:induction false} RecordedPhase(ls: Ledgers, ev: Event, outs: seq<Out>, k: u32)
    requires k in ls && (forall i :: 0 <= i < |outs| && outs[i].On? && outs[i].local == k ==>
                           outs[i].message != Confirmation)
    ensures k in RecordOuts(ls, ev, outs)
    ensures RecordOuts(ls, ev, outs)[k].phase == PhaseAfter(ls[k].phase, outs, k)
    decreases |outs|
  {
    if outs != [] {
      RecordedPhase(RecordOut(ls, ev, outs[0]), ev, outs[1..], k);
    }
  }

  /** Messages that leave the order alone. */
  predicate Neutral(outs: seq<Out>) {
    forall i :: 0 <= i < |outs| && outs[i].On? ==>
      !outs[i].message.Data? && !outs[i].message.Eof? && !outs[i].message.ExitStatus? && !outs[i].message.Close?
  }

  lemma {:induction false} NeutralPhase(phase: Phase, outs: seq<Out>, k: u32)
    requires Neutral(outs)
    ensures PhaseAfter(phase, outs, k) == phase
    decreases |outs|
  {
    if outs != [] {
      NeutralPhase(phase, outs[1..], k);
    }
  }

  lemma OnePhase(phase: Phase, out: Out, k: u32)
    ensures PhaseAfter(phase, [out], k) == if out.On? && out.local == k then Advance(phase, out.message) else phase
  {
    assert [out][1..] == [];
  }

  lemma RequestPhase(t: Table, ev: Event, k: u32, phase: Phase)
    requires ev.DoRequest? && Proper(ev) && Step(t, ev).Ok? && ev.id == k
    ensures PhaseAfter(phase, Step(t, ev).value.1, k) ==
              if SendsBanner(t, ev, k) then Advance(phase, Data(ev.banner.value)) else phase
  {
    var outs := Step(t, ev).value.1;
    if SendsBanner(t, ev, k) {
      var c := t.channels[k];
      var reply, data := On(k, c.remoteId, Success), On(k, c.remoteId, Data(ev.banner.value));
      OnePhase(phase, data, k);
      assert [reply, data][1..] == [data];
      assert outs == (if ev.wantReply then [reply, data] else [data]);
    } else {
      NeutralPhase(phase, outs, k);
    }
  }

  lemma PollPhase(t: Table, ev: Event, k: u32, c: Channel, l: Ledger)
    requires ev.DoPoll? && Step(t, ev).Ok? && k in t.channels && c == t.channels[k]
    requires Coherent(c, l) && l.phase != Broken
    ensures PhaseAfter(l.phase, Step(t, ev).value.1, k) == Broken <==> TerminalReports(t, ev, k) && l.phase != Flowing
  {
    hide PollFrom, PollChannel, FirstToReport;
    var outs := Step(t, ev).value.1;
    PollReportsOnce(t, t.channels.Keys, ev.answers);
    ReportsIff(t, t.channels.Keys, ev.answers, k);
    if outs != [] {
      var out := outs[0];
      assert outs == [out];
      OnePhase(l.phase, out, k);
      ReportedMessage(t.channels[out.local], out.local, ev.answers);
    }
  }

  lemma {:induction false} SameRemote(c: Channel, id: u32, a: Answers)
    ensures PollChannel(c, id, a).0.remoteId == c.remoteId
    decreases Rank(c.terminal)
  {
    match c.terminal
    case Some(Exiting(_)) =>
      SameRemote(c.(terminal := Some(Closing)), id, a);
      if a.wait(id).WaitDone? && a.wait(id).code.Some? {
        SameRemote(c.(terminal := Some(Exited(a.wait(id).code.value % U32))), id, a);
      }
    case Some(Exited(_)) => SameRemote(c.(terminal := Some(Closing)), id, a);
    case _ =>
  }

  lemma ClosePhase(t: Table, ev: Event, k: u32, c: Channel, l: Ledger)
    requires ev.DoClose? && k in t.channels && c == t.channels[k] && ev.id == k
    requires Coherent(c, l) && l.phase != Broken
    ensures Step(t, ev).Ok? && PhaseAfter(l.phase, Step(t, ev).value.1, k) != Broken
  {
    OnePhase(l.phase, On(k, c.remoteId, Close), k);
  }

  lemma OtherPhase(t: Table, ev: Event, k: u32, phase: Phase)
    requires Step(t, ev).Ok? && (ev.DoAdjust? || ev.DoData? || ev.DoEof? || (ev.DoOpen? && k in t.channels))
    ensures PhaseAfter(phase, Step(t, ev).value.1, k) == phase
  {
    NeutralPhase(phase, Step(t, ev).value.1, k);
  }

  lemma {:induction false} ElsewherePhase(phase: Phase, outs: seq<Out>, k: u32)
    requires forall i :: 0 <= i < |outs| && outs[i].On? ==> outs[i].local != k
    ensures PhaseAfter(phase, outs, k) == phase
    decreases |outs|
  {
    if outs != [] {
      ElsewherePhase(phase, outs[1..], k);
    }
  }

  lemma StepPhase(t: Table, ls: Ledgers, ev: Event, k: u32)
    requires Inv(t, ls) && Proper(ev) && Step(t, ev).Ok? && k in t.channels && k in ls && ls[k].phase != Broken
    ensures PhaseAfter(ls[k].phase, Step(t, ev).value.1, k) == Broken <==>
              ls[k].phase != Flowing && (SendsBanner(t, ev, k) || TerminalReports(t, ev, k))
  {
    hide Step, Inv, PhaseAfter, Balanced, Coherent;
    InvHas(t, ls, k);
    var c, l := t.channels[k], ls[k];
    if Target(ev).Some? && Target(ev).value != k {
      StepSays(t, ev);
      ElsewherePhase(l.phase, Step(t, ev).value.1, k);
    } else {
      match ev
      case DoRequest(_, _, _, _) => RequestPhase(t, ev, k, l.phase);
      case DoClose(_, _) => ClosePhase(t, ev, k, c, l);
      case DoPoll(_) => PollPhase(t, ev, k, c, l);
      case _ => OtherPhase(t, ev, k, l.phase);
    }
  }

  /** In every reachable state, the next step breaks the output order of a channel exactly when
      the output has already ended and the event brings a banner, or finds a terminal that is still
      running with something to report before all others. */
  lemma OrderBreaksExactlyWhen(t: Table, ls: Ledgers, evs: seq<Event>, ev: Event, k: u32)
    requires Reachable(t, ls, evs) && Proper(ev) && Step(t, ev).Ok?
    requires k in t.channels && k in ls && ls[k].phase != Broken
    ensures k in Record(ls, ev, Step(t, ev).value.1)
    ensures Record(ls, ev, Step(t, ev).value.1)[k].phase == Broken <==>
              ls[k].phase != Flowing && (SendsBanner(t, ev, k) || TerminalReports(t, ev, k))
  {
    hide Step, PhaseAfter, Inv, RunEvents, RecordOuts, SendsBanner, TerminalReports;
    ReachableInv(t, ls, evs);
    StepPhase(t, ls, ev, k);
    StepSays(t, ev);
    var outs := Step(t, ev).value.1;
    if ev.DoOpen? {
      OpenedElsewhere(t, ev, k);
    }
    RecordedPhase(RecordIn(ls, ev), ev, outs, k);
    assert RecordIn(ls, ev)[k].phase == ls[k].phase;
  }

  lemma OpenedElsewhere(t: Table, ev: Event, k: u32)
    requires ev.DoOpen? && k in t.channels
    ensures Step(t, ev).Ok?
    ensures forall i :: 0 <= i < |Step(t, ev).value.1| && Step(t, ev).value.1[i].On? ==>
              Step(t, ev).value.1[i].local != k
  {
  }

  // The size of data packets

  lemma RequestData(t: Table, ev: Event, i: nat)
    requires Step(t, ev).Ok? && ev.DoRequest? && i < |Step(t, ev).value.1|
    requires Step(t, ev).value.1[i].On? && Step(t, ev).value.1[i].message.Data?
    ensures ev.id in t.channels && Step(t, ev).value.1[i].local == ev.id
    ensures ev.banner == Some(Step(t, ev).value.1[i].message.data)
  {
  }

  /** Any data sent is within the maximum packet size of its channel exactly when it comes from
      the terminal or is a banner of at most that size: banners are held to the window only. */
  lemma DataFitsPacketSize(t: Table, ev: Event, i: nat)
    requires Step(t, ev).Ok? && i < |Step(t, ev).value.1|
    requires Step(t, ev).value.1[i].On? && Step(t, ev).value.1[i].message.Data?
    ensures var out := Step(t, ev).value.1[i];
            && out.local in t.channels
            && (|out.message.data| <= t.channels[out.local].maximumPacketSize <==>
                  ev.DoPoll? || (ev.DoRequest? && ev.banner.Some?
                                 && |ev.banner.value| <= t.channels[out.local].maximumPacketSize))
  {
    hide PollFrom, PollChannel;
    match ev
    case DoPoll(answers) =>
      PollReportsOnce(t, t.channels.Keys, answers);
      var out := Step(t, ev).value.1[0];
      TerminalDataFits(t.channels[out.local], out.local, answers);
    case DoRequest(_, _, _, _) => RequestData(t, ev, i);
    case _ =>
  }
}
