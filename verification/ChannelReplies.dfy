/** What the channel layer answers: which requests are granted and which refused, to whom every message
    goes, and where what a terminal reports comes from. */
module ChannelReplies {
  import opened Bytes
  import opened Transport
  import opened Channels
  import opened ChannelRuns

  // Requests

  /** A terminal, a permitted variable while fewer than 32 are kept, a shell that starts on a terminal asked
      for, and a new window size are granted; nothing else is. */
  predicate Grants(c: Channel, kind: RequestKind) {
    match kind
    case PtyReq => true
    case Env(allowed) => allowed && c.env < 32
    case Shell(spawned) => c.terminal == Some(Requested) && spawned
    case WindowChange(resized) => c.terminal == Some(Running) ==> resized
    case OtherRequest => false
  }

  /** A request ends the session if it is for an unknown channel, or for a shell or a window size that
      cannot be had. */
  predicate Ends(t: Table, id: u32, kind: RequestKind) {
    id !in t.channels || ((kind.Shell? || kind.WindowChange?) && !Grants(t.channels[id], kind))
  }

  predicate IsReply(out: Out) {
    out.On? && (out.message.Success? || out.message.Failure?)
  }

  function RepliesIn(outs: seq<Out>): seq<Out> {
    if outs == [] then [] else (if IsReply(outs[0]) then [outs[0]] else []) + RepliesIn(outs[1..])
  }

  /** Every message is for channel `id` and goes to its peer. */
  predicate Addressed(outs: seq<Out>, id: u32, remote: u32) {
    forall i :: 0 <= i < |outs| ==> outs[i].On? && outs[i].local == id && outs[i].remote == remote
  }

  lemma RepliesBehind(x: Out, outs: seq<Out>)
    ensures RepliesIn([x] + outs) == (if IsReply(x) then [x] else []) + RepliesIn(outs)
  {
    assert ([x] + outs)[1..] == outs;
  }

  lemma GrantedAnswers(c: Channel, id: u32, wantReply: bool, banner: Option<bytes>)
    ensures var outs := Granted(c, id, wantReply, banner).1;
            && Addressed(outs, id, c.remoteId)
            && RepliesIn(outs) == if wantReply then [On(id, c.remoteId, Success)] else []
  {
    hide RepliesIn;
    var outs := Granted(c, id, wantReply, banner).1;
    var none: seq<Out> := [];
    assert RepliesIn(none) == [] by { NoReplies(); }
    var success := On(id, c.remoteId, Success);
    RepliesBehind(success, none);
    assert [success] + none == [success];
    if banner.Some? {
      var data := On(id, c.remoteId, Data(banner.value));
      RepliesBehind(data, none);
      RepliesBehind(success, [data]);
      assert [data] + none == [data] == none + [data];
    }
  }

  lemma NoReplies()
    ensures RepliesIn([]) == []
  {
  }

  /** Requests are answered when and only when an answer is wanted, once, to the peer of the channel: with
      success if and only if they are granted. */
  lemma RequestAnswered(t: Table, id: u32, kind: RequestKind, wantReply: bool, banner: Option<bytes>)
    ensures Request(t, id, kind, wantReply, banner).Err? <==> Ends(t, id, kind)
    ensures !Ends(t, id, kind) ==>
              var c := t.channels[id];
              var outs := Request(t, id, kind, wantReply, banner).value.1;
              && Addressed(outs, id, c.remoteId)
              && RepliesIn(outs)
                 == if wantReply then [On(id, c.remoteId, if Grants(c, kind) then Success else Failure)] else []
  {
    hide RepliesIn, Granted;
    if !Ends(t, id, kind) {
      var c := t.channels[id];
      NoReplies();
      if !Grants(c, kind) {
        var failure := On(id, c.remoteId, Failure);
        RepliesBehind(failure, []);
        assert [failure] + [] == [failure];
      } else {
        var asked := match kind
          case PtyReq => c.(terminal := Some(Requested))
          case Env(_) => c.(env := c.env + 1)
          case Shell(_) => c.(terminal := Some(Running), receiveWindow := INITIAL_WINDOW_SIZE)
          case _ => c;
        GrantedAnswers(asked, id, wantReply, banner);
        RepliesBehind(On(id, c.remoteId, WindowAdjust(INITIAL_WINDOW_SIZE)), Granted(asked, id, wantReply, banner).1);
      }
    }
  }

  /** All that a request leads to, in order: a shell opens the receive window, the answer follows, then a
      banner that fits the send window; a refused request changes nothing. */
  lemma RequestEffects(t: Table, id: u32, kind: RequestKind, wantReply: bool, banner: Option<bytes>)
    requires !Ends(t, id, kind)
    ensures var c := t.channels[id];
            var (t', outs) := Request(t, id, kind, wantReply, banner).value;
            var sends := Grants(c, kind) && banner.Some? && |banner.value| <= c.sendWindow;
            && t'.nextId == t.nextId && t'.channels.Keys == t.channels.Keys
            && (forall k :: k in t.channels && k != id ==> t'.channels[k] == t.channels[k])
            && (!Grants(c, kind) ==> t' == t)
            && outs == (if kind.Shell? then [On(id, c.remoteId, WindowAdjust(1_048_576))] else [])
                       + (if wantReply then [On(id, c.remoteId, if Grants(c, kind) then Success else Failure)] else [])
                       + (if sends then [On(id, c.remoteId, Data(banner.value))] else [])
            && (Grants(c, kind) ==>
                  t'.channels[id] == c.(
                    sendWindow := if sends then c.sendWindow - |banner.value| else c.sendWindow,
                    receiveWindow := if kind.Shell? then 1_048_576 else c.receiveWindow,
                    env := if kind.Env? then c.env + 1 else c.env,
                    terminal := if kind.PtyReq? then Some(Requested) else if kind.Shell? then Some(Running)
                                else c.terminal))
  {
  }

  // Every message goes to the peer of its channel

  /** The channel has the numbers its opening gave it. */
  predicate OpenedBy(c: Channel, ev: Event) {
    ev.DoOpen? && ev.session && c.remoteId == ev.sender && c.maximumPacketSize == ev.maximum
  }

  lemma {:induction false} PollKeepsNumbers(c: Channel, id: u32, a: Answers)
    ensures var d := PollChannel(c, id, a).0;
            d.remoteId == c.remoteId && d.maximumPacketSize == c.maximumPacketSize
    decreases Rank(c.terminal)
  {
    match c.terminal
    case Some(Exiting(_)) =>
      PollKeepsNumbers(c.(terminal := Some(Closing)), id, a);
      if a.wait(id).WaitDone? && a.wait(id).code.Some? {
        PollKeepsNumbers(c.(terminal := Some(Exited(a.wait(id).code.value % U32))), id, a);
      }
    case Some(Exited(_)) => PollKeepsNumbers(c.(terminal := Some(Closing)), id, a);
    case _ =>
  }

  /** No channel changes its numbers, and none appears. */
  predicate SameNumbers(t: Table, t': Table) {
    forall k :: k in t'.channels ==>
      && k in t.channels && t'.channels[k].remoteId == t.channels[k].remoteId
      && t'.channels[k].maximumPacketSize == t.channels[k].maximumPacketSize
  }

  lemma {:induction false} PollFromKeepsNumbers(t: Table, pending: set<u32>, a: Answers)
    requires pending <= t.channels.Keys && PollFrom(t, pending, a).Ok?
    ensures var (t', outs) := PollFrom(t, pending, a).value;
            SameNumbers(t, t') && forall i :: 0 <= i < |outs| ==> ToPeer(t, outs[i])
    decreases |pending|
  {
    hide PollChannel;
    if pending != {} {
      var id := Least(pending);
      PollKeepsNumbers(t.channels[id], id, a);
      var (c, v) := PollChannel(t.channels[id], id, a);
      if v.Continue? {
        PollFromKeepsNumbers(Set(t, id, c), pending - {id}, a);
      }
    }
  }

  /** The message goes to the number the channel has. */
  predicate ToPeer(t: Table, out: Out) {
    out.On? && out.local in t.channels && out.remote == t.channels[out.local].remoteId
  }

  /** A step that is not an opening leaves the numbers alone and speaks to the peers of its channels. */
  lemma StepSpeaksToPeers(t: Table, ev: Event)
    requires !ev.DoOpen? && Step(t, ev).Ok?
    ensures var (t', outs) := Step(t, ev).value;
            SameNumbers(t, t') && forall i :: 0 <= i < |outs| ==> ToPeer(t, outs[i])
  {
    hide Request, PollFrom, ReceiveClose, RepliesIn;
    match ev
    case DoPoll(a) => PollFromKeepsNumbers(t, t.channels.Keys, a);
    case DoRequest(id, kind, wantReply, banner) =>
      RequestAnswered(t, id, kind, wantReply, banner);
      RequestKeepsNumbers(t, id, kind, wantReply, banner);
    case DoClose(id, now) => CloseKeepsNumbers(t, id, now);
    case _ =>
  }

  lemma RequestKeepsNumbers(t: Table, id: u32, kind: RequestKind, wantReply: bool, banner: Option<bytes>)
    requires Request(t, id, kind, wantReply, banner).Ok?
    ensures SameNumbers(t, Request(t, id, kind, wantReply, banner).value.0)
  {
  }

  lemma CloseKeepsNumbers(t: Table, id: u32, now: nat)
    ensures var (t', outs) := ReceiveClose(t, id, now);
            SameNumbers(t, t') && forall i :: 0 <= i < |outs| ==> ToPeer(t, outs[i])
  {
  }

  /** An opening is confirmed exactly when it is for a session and the number is free; the confirmation or
      refusal goes to the sender, and the new channel has the numbers of the opening and no window yet. */
  lemma OpenAnswered(t: Table, session: bool, sender: u32, window: u32, maximum: u32)
    ensures var (t', outs) := Open(t, session, sender, window, maximum);
            var id := t.nextId;
            if session && id !in t.channels
            then && outs == [On(id, sender, Confirmation)] && t'.channels.Keys == t.channels.Keys + {id}
                 && t'.channels[id] == Channel(sender, window, 0, maximum, 0, None, false)
                 && forall k :: k in t.channels ==> t'.channels[k] == t.channels[k]
            else outs == [Refused(sender)] && t'.channels == t.channels
    ensures session ==>
              Open(t, session, sender, window, maximum).0.nextId == if t.nextId == 0xffff_ffff then 0 else t.nextId + 1
  {
  }

  /** A close from the peer is answered with a close exactly if none has been sent. */
  lemma CloseAnswered(t: Table, id: u32, now: nat)
    requires id in t.channels
    ensures var c := t.channels[id];
            var (t', outs) := ReceiveClose(t, id, now);
            var live := c.terminal.Some? && (c.terminal.value.Running? || c.terminal.value.Exiting?
                                             || c.terminal.value.Reaping?);
            && outs == (if c.closeSent then [] else [On(id, c.remoteId, Close)])
            && t'.channels.Keys == (if live then t.channels.Keys else t.channels.Keys - {id})
            && (live ==> t'.channels[id].closeSent && t'.channels[id].terminal.value.Reaping?)
            && (forall k :: k in t.channels && k != id ==> t'.channels[k] == t.channels[k])
  {
  }

  /** A message for a channel that is not there ends the session, except a close, which passes; an
      adjustment adds to the send window up to its limit, and an end of file changes nothing. */
  lemma OthersAnswered(t: Table, ev: Event)
    requires ev.DoAdjust? || ev.DoEof? || ev.DoClose? || ev.DoData?
    ensures ev.id !in t.channels ==> if ev.DoClose? then Step(t, ev) == Ok((t, [])) else Step(t, ev).Err?
    ensures ev.DoEof? && ev.id in t.channels ==> Step(t, ev) == Ok((t, []))
    ensures ev.DoAdjust? && ev.id in t.channels ==>
              var c := t.channels[ev.id];
              var window := if c.sendWindow + ev.n > 0xffff_ffff then 0xffff_ffff else c.sendWindow + ev.n;
              Step(t, ev) == Ok((t.(channels := t.channels[ev.id := c.(sendWindow := window)]), []))
  {
  }

  /** A run that remembers which event opened each channel. */
  ghost function RunOpeners(t: Table, openers: map<u32, Event>, evs: seq<Event>): Option<(Table, map<u32, Event>)>
    decreases |evs|
  {
    if evs == [] then Some((t, openers)) else
    match Step(t, evs[0])
    case Err(_) => None
    case Ok((t', outs)) =>
      var opens := evs[0].DoOpen? && outs == [On(t.nextId, evs[0].sender, Confirmation)];
      RunOpeners(t', if opens then openers[t.nextId := evs[0]] else openers, evs[1..])
  }

  ghost predicate Numbered(t: Table, openers: map<u32, Event>) {
    forall k :: k in t.channels ==> k in openers && OpenedBy(t.channels[k], openers[k])
  }

  lemma StepNumbered(t: Table, openers: map<u32, Event>, ev: Event)
    requires Numbered(t, openers) && Step(t, ev).Ok?
    ensures var (t', outs) := Step(t, ev).value;
            var opens := ev.DoOpen? && outs == [On(t.nextId, ev.sender, Confirmation)];
            Numbered(t', if opens then openers[t.nextId := ev] else openers)
  {
    hide Step;
    if ev.DoOpen? {
      OpenAnswered(t, ev.session, ev.sender, ev.window, ev.maximum);
      OpenSteps(t, ev);
    } else {
      StepSpeaksToPeers(t, ev);
    }
  }

  lemma OpenSteps(t: Table, ev: Event)
    requires ev.DoOpen?
    ensures Step(t, ev) == Ok(Open(t, ev.session, ev.sender, ev.window, ev.maximum))
  {
  }

  lemma {:induction false} RunNumbered(t: Table, openers: map<u32, Event>, evs: seq<Event>)
    requires Numbered(t, openers) && RunOpeners(t, openers, evs).Some?
    ensures Numbered(RunOpeners(t, openers, evs).value.0, RunOpeners(t, openers, evs).value.1)
    decreases |evs|
  {
    hide Step, Numbered;
    if evs != [] {
      StepNumbered(t, openers, evs[0]);
      var (t', outs) := Step(t, evs[0]).value;
      var opens := evs[0].DoOpen? && outs == [On(t.nextId, evs[0].sender, Confirmation)];
      RunNumbered(t', if opens then openers[t.nextId := evs[0]] else openers, evs[1..]);
    }
  }

  lemma {:induction false} SameRun(t: Table, ls: Ledgers, openers: map<u32, Event>, evs: seq<Event>)
    ensures RunEvents(t, ls, evs).Some? <==> RunOpeners(t, openers, evs).Some?
    ensures RunEvents(t, ls, evs).Some? ==> RunEvents(t, ls, evs).value.0 == RunOpeners(t, openers, evs).value.0
    decreases |evs|
  {
    hide Step, Record;
    if evs != [] && Step(t, evs[0]).Ok? {
      var (t', outs) := Step(t, evs[0]).value;
      var opens := evs[0].DoOpen? && outs == [On(t.nextId, evs[0].sender, Confirmation)];
      SameRun(t', Record(ls, evs[0], outs), if opens then openers[t.nextId := evs[0]] else openers, evs[1..]);
    }
  }

  /** In every reachable state, each channel has the remote number and the maximum packet size of the
      request that opened it; so every message of every run goes to the number its peer chose. */
  lemma ChannelsKeepTheirNumbers(t: Table, ls: Ledgers, evs: seq<Event>, k: u32)
    requires Reachable(t, ls, evs) && k in t.channels
    ensures var run := RunOpeners(EMPTY, map[], evs);
            run.Some? && run.value.0 == t && k in run.value.1 && OpenedBy(t.channels[k], run.value.1[k])
  {
    hide RunEvents, RunOpeners;
    SameRun(EMPTY, map[], map[], evs);
    RunNumbered(EMPTY, map[], evs);
  }

  // What terminals report

  /** An exit status is the exit code modulo 2^32. */
  predicate StatusOf(status: u32, code: int) {
    (code - status) % 0x1_0000_0000 == 0
  }

  /** What a channel reports, and what then becomes of it. */
  lemma PollTells(c: Channel, id: u32, a: Answers)
    ensures var (d, v) := PollChannel(c, id, a);
            match c.terminal
            case None => (d, v) == (c, Continue)
            case Some(Requested) => (d, v) == (c, Continue)
            case Some(Running) =>
              if Room(c) == 0 then (d, v) == (c, Continue) else
              (match a.read(id, Room(c))
               case ReadPending => (d, v) == (c, Continue)
               case ReadError => v == Abort
               case ReadEof => v == Emit(Eof) && d == c.(terminal := Some(Exiting(a.now(id) + 5)))
               case ReadData(data) => v == Emit(Data(data)) && d == c.(sendWindow := c.sendWindow - |data|))
            case Some(Exiting(_)) =>
              (match a.wait(id)
               case WaitPending => (d, v) == (c, Continue)
               case WaitDone(Some(code)) =>
                 && d == c.(terminal := Some(Closing))
                 && if c.closeSent then v == Continue
                    else v.Emit? && v.message.ExitStatus? && StatusOf(v.message.status, code)
               case _ =>
                 d == c.(terminal := Some(Closing), closeSent := true)
                 && v == if c.closeSent then Continue else Emit(Close))
            case Some(Exited(status)) =>
              d == c.(terminal := Some(Closing)) && v == if c.closeSent then Continue else Emit(ExitStatus(status))
            case Some(Reaping(deadline)) =>
              d == c && v == if a.wait(id).WaitPending? && a.now(id) < deadline then Continue else Remove
            case Some(Closing) => d == c.(closeSent := true) && v == if c.closeSent then Continue else Emit(Close)
  {
    if c.terminal.Some? && c.terminal.value.Exiting? {
      ClosingTells(c.(terminal := Some(Closing)), id, a);
      if a.wait(id).WaitDone? && a.wait(id).code.Some? {
        var code := a.wait(id).code.value;
        var exited := c.(terminal := Some(Exited(code % U32)));
        assert (code - code % U32) % U32 == 0;
        assert PollChannel(c, id, a) == PollChannel(exited, id, a);
        assert exited.(terminal := Some(Closing)) == c.(terminal := Some(Closing));
      }
    } else if c.terminal.Some? && c.terminal.value.Exited? {
      ClosingTells(c.(terminal := Some(Closing)), id, a);
    }
  }

  lemma ClosingTells(c: Channel, id: u32, a: Answers)
    requires c.terminal == Some(Closing)
    ensures PollChannel(c, id, a) == (c.(closeSent := true), if c.closeSent then Continue else Emit(Close))
  {
    assert c.closeSent ==> c.(closeSent := true) == c;
  }

  /** No channel is kept with its exit status untold: it is told in the poll that learns it. */
  predicate Told(t: Table) {
    forall k :: k in t.channels && t.channels[k].terminal.Some? ==> !t.channels[k].terminal.value.Exited?
  }

  lemma {:induction false} PollFromTold(t: Table, pending: set<u32>, a: Answers)
    requires pending <= t.channels.Keys && PollFrom(t, pending, a).Ok? && Told(t)
    ensures Told(PollFrom(t, pending, a).value.0)
    decreases |pending|
  {
    hide PollChannel;
    if pending != {} {
      var id := Least(pending);
      PollTells(t.channels[id], id, a);
      var (c, v) := PollChannel(t.channels[id], id, a);
      if v.Continue? {
        PollFromTold(Set(t, id, c), pending - {id}, a);
      }
    }
  }

  lemma StepTold(t: Table, ev: Event)
    requires Told(t) && Step(t, ev).Ok?
    ensures Told(Step(t, ev).value.0)
  {
    hide PollFrom, Request;
    match ev
    case DoPoll(a) => PollFromTold(t, t.channels.Keys, a);
    case DoRequest(id, kind, wantReply, banner) => RequestTold(t, id, kind, wantReply, banner);
    case _ =>
  }

  lemma RequestTold(t: Table, id: u32, kind: RequestKind, wantReply: bool, banner: Option<bytes>)
    requires Told(t) && Request(t, id, kind, wantReply, banner).Ok?
    ensures Told(Request(t, id, kind, wantReply, banner).value.0)
  {
  }

  lemma {:induction false} RunTold(t: Table, ls: Ledgers, evs: seq<Event>)
    requires Told(t) && RunEvents(t, ls, evs).Some?
    ensures Told(RunEvents(t, ls, evs).value.0)
    decreases |evs|
  {
    hide Step, Told, Record;
    if evs != [] {
      StepTold(t, evs[0]);
      RunTold(Step(t, evs[0]).value.0, Record(ls, evs[0], Step(t, evs[0]).value.1), evs[1..]);
    }
  }

  /** What a message of a poll says is so: data is what was read, an end of file is one that was read, an
      exit status is the code waited for, and a close follows an exit that has been told or has no code. */
  predicate Truthful(c: Channel, id: u32, a: Answers, m: Message) {
    match m
    case Data(data) => c.terminal == Some(Running) && a.read(id, Room(c)) == ReadData(data)
    case Eof => c.terminal == Some(Running) && a.read(id, Room(c)) == ReadEof
    case ExitStatus(status) =>
      c.terminal.Some? && c.terminal.value.Exiting? && a.wait(id).WaitDone? && a.wait(id).code.Some?
      && StatusOf(status, a.wait(id).code.value)
    case Close =>
      c.terminal.Some? && (c.terminal.value.Closing?
                           || (c.terminal.value.Exiting? && (a.wait(id).WaitError? || a.wait(id) == WaitDone(None))))
    case _ => false
  }

  /** In every reachable state, whatever a poll reports of a channel is true of its terminal. */
  lemma PollsAreTruthful(t: Table, ls: Ledgers, evs: seq<Event>, a: Answers)
    requires Reachable(t, ls, evs) && Step(t, DoPoll(a)).Ok?
    ensures var outs := Step(t, DoPoll(a)).value.1;
            forall i :: 0 <= i < |outs| ==>
              ToPeer(t, outs[i]) && Truthful(t.channels[outs[i].local], outs[i].local, a, outs[i].message)
  {
    hide PollFrom, PollChannel, RunEvents;
    assert Told(EMPTY);
    RunTold(EMPTY, map[], evs);
    PollReportsOnce(t, t.channels.Keys, a);
    var outs := Step(t, DoPoll(a)).value.1;
    if outs != [] {
      PollTells(t.channels[outs[0].local], outs[0].local, a);
    }
  }
}
