/** Runs that show where the channel layer falls short: each reaches a state that the exact
    conditions of the theorems single out. All of them are about channel 0. */
module ChannelWitnesses {
  import opened Bytes
  import opened Channels
  import opened ChannelRuns

  const OPEN := DoOpen(true, 7, 100, 1000)
  const PTY := DoRequest(0, PtyReq, false, None)
  const SHELL := DoRequest(0, Shell(true), false, None)

  /** The terminal is asked for, and a banner goes with it. */
  function Banner(text: bytes): Event {
    DoRequest(0, PtyReq, false, Some(text))
  }

  function Opened(window: u32, maximum: u32): Channel {
    Channel(7, window, 0, maximum, 0, None, false)
  }

  /** What is known along the way: channel 0 is the only one, with its books. */
  ghost predicate At(t: Table, ls: Ledgers, evs: seq<Event>, c: Channel, l: Ledger) {
    Reachable(t, ls, evs) && t.channels == map[0 := c] && 0 in ls && ls[0] == l
  }

  lemma Opening(window: u32, maximum: u32) returns (t: Table, ls: Ledgers, evs: seq<Event>)
    ensures At(t, ls, evs, Opened(window, maximum), Fresh(window)) && evs == [DoOpen(true, 7, window, maximum)]
  {
    var ev := DoOpen(true, 7, window, maximum);
    assert Reachable(EMPTY, map[], []);
    ReachableStep(EMPTY, map[], [], ev);
    assert [] + [ev] == [ev];
    OpenedFresh(EMPTY, map[], ev, 0);
    evs := [ev];
    t, ls := Step(EMPTY, ev).value.0, map[0 := Fresh(window)];
  }

  /** One more event on channel 0. */
  lemma Then(t: Table, ls: Ledgers, evs: seq<Event>, c: Channel, l: Ledger, ev: Event, d: Channel, outs: seq<Out>)
    returns (u: Table, ms: Ledgers, more: seq<Event>)
    requires At(t, ls, evs, c, l) && Proper(ev) && Target(ev) == Some(0)
    requires Step(t, ev) == Ok((Set(t, 0, d), outs)) && OnlyOn(0, outs)
    ensures At(u, ms, more, d, Books(Heard(l, ev), 0, outs)) && more == evs + [ev]
  {
    hide Step, RunEvents, Heard, Books;
    ReachableStep(t, ls, evs, ev);
    RecordedBooks(RecordIn(ls, ev), ev, 0, outs);
    u, ms, more := Set(t, 0, d), Record(ls, ev, outs), evs + [ev];
  }

  lemma SaidOne(l: Ledger, m: Message)
    ensures Books(l, 0, []) == l && Books(l, 0, [On(0, 7, m)]) == Said(l, m)
  {
    assert [On(0, 7, m)][1..] == [];
  }

  lemma Ask(t: Table, ls: Ledgers, evs: seq<Event>, c: Channel, l: Ledger)
    returns (u: Table, ms: Ledgers, more: seq<Event>)
    requires At(t, ls, evs, c, l)
    ensures At(u, ms, more, c.(terminal := Some(Requested)), Heard(l, PTY)) && more == evs + [PTY]
  {
    SaidOne(Heard(l, PTY), Success);
    u, ms, more := Then(t, ls, evs, c, l, PTY, c.(terminal := Some(Requested)), []);
  }

  lemma Spawn(t: Table, ls: Ledgers, evs: seq<Event>, c: Channel, l: Ledger)
    returns (u: Table, ms: Ledgers, more: seq<Event>)
    requires At(t, ls, evs, c, l) && c.terminal == Some(Requested) && c.remoteId == 7
    ensures At(u, ms, more, c.(terminal := Some(Running), receiveWindow := INITIAL_WINDOW_SIZE),
               Said(Heard(l, SHELL), WindowAdjust(INITIAL_WINDOW_SIZE)))
    ensures more == evs + [SHELL]
  {
    var outs := [On(0, 7, WindowAdjust(INITIAL_WINDOW_SIZE))];
    SaidOne(Heard(l, SHELL), WindowAdjust(INITIAL_WINDOW_SIZE));
    assert outs + [] == outs;
    u, ms, more := Then(t, ls, evs, c, l, SHELL, c.(terminal := Some(Running), receiveWindow := INITIAL_WINDOW_SIZE),
                        outs);
  }

  lemma Greet(t: Table, ls: Ledgers, evs: seq<Event>, c: Channel, l: Ledger, text: bytes)
    returns (u: Table, ms: Ledgers, more: seq<Event>)
    requires At(t, ls, evs, c, l) && c.remoteId == 7 && |text| <= c.sendWindow
    ensures At(u, ms, more, c.(terminal := Some(Requested), sendWindow := c.sendWindow - |text|),
               Said(Heard(l, Banner(text)), Data(text)))
    ensures more == evs + [Banner(text)]
    ensures Step(t, Banner(text)).Ok? && Step(t, Banner(text)).value.1 == [On(0, 7, Data(text))]
  {
    var ev, outs := Banner(text), [On(0, 7, Data(text))];
    SaidOne(Heard(l, ev), Data(text));
    assert [] + outs == outs;
    u, ms, more := Then(t, ls, evs, c, l, ev, c.(terminal := Some(Requested), sendWindow := c.sendWindow - |text|),
                        outs);
  }

  /** The running terminal of channel 0 reports. */
  lemma Report(t: Table, ls: Ledgers, evs: seq<Event>, c: Channel, l: Ledger, a: Answers, d: Channel, m: Message)
    returns (u: Table, ms: Ledgers, more: seq<Event>)
    requires At(t, ls, evs, c, l) && c.remoteId == 7 && m != Confirmation
    requires PollChannel(c, 0, a) == (d, Emit(m)) && d.remoteId == 7
    ensures At(u, ms, more, d, Said(l, m)) && more == evs + [DoPoll(a)]
    ensures Step(t, DoPoll(a)).Ok? && Step(t, DoPoll(a)).value.1 == [On(0, 7, m)]
  {
    hide PollChannel, Said, RunEvents;
    var ev := DoPoll(a);
    assert t.channels.Keys == {0};
    assert Least(t.channels.Keys) == 0;
    assert Step(t, ev) == Ok((Set(t, 0, d), [On(0, 7, m)]));
    ReachableStep(t, ls, evs, ev);
    RecordOne(ls, ev, On(0, 7, m));
    u, ms, more := Set(t, 0, d), Record(ls, ev, [On(0, 7, m)]), evs + [ev];
  }

  lemma WithShell(window: u32, maximum: u32)
    returns (t: Table, ls: Ledgers, evs: seq<Event>, c: Channel, l: Ledger)
    ensures At(t, ls, evs, c, l) && l.phase == Flowing
    ensures c == Opened(window, maximum).(terminal := Some(Running), receiveWindow := INITIAL_WINDOW_SIZE)
    ensures evs == [DoOpen(true, 7, window, maximum), PTY, SHELL]
  {
    hide At;
    t, ls, evs := Opening(window, maximum);
    c, l := Opened(window, maximum), Fresh(window);
    t, ls, evs := Ask(t, ls, evs, c, l);
    c, l := c.(terminal := Some(Requested)), Heard(l, PTY);
    t, ls, evs := Spawn(t, ls, evs, c, l);
    c, l := c.(terminal := Some(Running), receiveWindow := INITIAL_WINDOW_SIZE),
            Said(Heard(l, SHELL), WindowAdjust(INITIAL_WINDOW_SIZE));
  }

  /** The order breaks with any banner on any window that holds it: it is sent on a channel whose
      close has been answered. */
  lemma OrderCanBreak(text: bytes, window: u32, maximum: u32) returns (t: Table, ls: Ledgers, evs: seq<Event>)
    requires |text| <= window
    ensures Reachable(t, ls, evs) && 0 in ls && ls[0].phase == Broken
    ensures evs == [DoOpen(true, 7, window, maximum), PTY, SHELL, DoClose(0, 0), Banner(text)]
  {
    var c, l;
    t, ls, evs, c, l := WithShell(window, maximum);
    var close := DoClose(0, 0);
    var d := c.(terminal := Some(Reaping(5)), closeSent := true);
    SaidOne(Heard(l, close), Close);
    t, ls, evs := Then(t, ls, evs, c, l, close, d, [On(0, 7, Close)]);
    t, ls, evs := Greet(t, ls, evs, d, Said(Heard(l, close), Close), text);
  }

  const EOF: Answers := AnswerFunctions(id => WaitPending, (id, room) => ReadEof, id => 0)
  const BYTE: Answers :=
    AnswerFunctions(id => WaitPending, (id, room) => if room > 0 then ReadData([1]) else ReadPending, id => 0)

  /** It breaks without any banner: a shell that is started again after end of file goes on
      sending. */
  lemma OrderCanBreakWithoutBanner() returns (t: Table, ls: Ledgers, evs: seq<Event>)
    ensures Reachable(t, ls, evs) && 0 in ls && ls[0].phase == Broken
    ensures evs == [OPEN, PTY, SHELL, DoPoll(EOF), PTY, SHELL, DoPoll(BYTE)]
  {
    hide At;
    var c, l;
    t, ls, evs, c, l := WithShell(100, 1000);
    t, ls, evs := Report(t, ls, evs, c, l, EOF, c.(terminal := Some(Exiting(5))), Eof);
    c, l := c.(terminal := Some(Exiting(5))), Said(l, Eof);
    t, ls, evs := Ask(t, ls, evs, c, l);
    c, l := c.(terminal := Some(Requested)), Heard(l, PTY);
    t, ls, evs := Spawn(t, ls, evs, c, l);
    c, l := c.(terminal := Some(Running), receiveWindow := INITIAL_WINDOW_SIZE),
            Said(Heard(l, SHELL), WindowAdjust(INITIAL_WINDOW_SIZE));
    t, ls, evs := Report(t, ls, evs, c, l, BYTE, c.(sendWindow := 99), Data([1]));
    Arrived(t, ls, evs, c.(sendWindow := 99), Said(l, Data([1])));
  }

  lemma Arrived(t: Table, ls: Ledgers, evs: seq<Event>, c: Channel, l: Ledger)
    requires At(t, ls, evs, c, l)
    ensures Reachable(t, ls, evs) && 0 in t.channels && t.channels[0] == c && 0 in ls && ls[0] == l
  {
  }

  /** A shell grant can replace a window that is not empty: an empty data packet on the closed
      window of a new channel has it filled first. */
  lemma GrantsCanOverlap() returns (t: Table, ls: Ledgers, evs: seq<Event>)
    ensures Reachable(t, ls, evs) && 0 in t.channels && 0 in ls
    ensures t.channels[0].receiveWindow < ls[0].granted - ls[0].accepted
    ensures evs == [OPEN, DoData(0, []), PTY, SHELL]
  {
    hide At, Heard, Said, RunEvents;
    var c, l := Opened(100, 1000), Fresh(100);
    t, ls, evs := Opening(100, 1000);
    var empty := DoData(0, []);
    t, ls, evs := Refill(t, ls, evs, c, l, empty, c.(receiveWindow := INITIAL_WINDOW_SIZE));
    c, l := c.(receiveWindow := INITIAL_WINDOW_SIZE), Said(Heard(l, empty), WindowAdjust(INITIAL_WINDOW_SIZE));
    t, ls, evs := Ask(t, ls, evs, c, l);
    c, l := c.(terminal := Some(Requested)), Heard(l, PTY);
    t, ls, evs := Replace(t, ls, evs, c, l);
  }

  /** A grant on a window that is not empty. */
  lemma Replace(t: Table, ls: Ledgers, evs: seq<Event>, c: Channel, l: Ledger)
    returns (u: Table, ms: Ledgers, more: seq<Event>)
    requires At(t, ls, evs, c, l) && c.terminal == Some(Requested) && c.remoteId == 7 && c.receiveWindow > 0
    ensures Reachable(u, ms, more) && 0 in u.channels && 0 in ms && more == evs + [SHELL]
    ensures u.channels[0].receiveWindow < ms[0].granted - ms[0].accepted
  {
    hide Heard, RunEvents;
    ReachableInv(t, ls, evs);
    SumsMove(c, l, SHELL);
    u, ms, more := Spawn(t, ls, evs, c, l);
    ReachableInv(u, ms, more);
    InvHas(u, ms, 0);
  }

  lemma Refill(t: Table, ls: Ledgers, evs: seq<Event>, c: Channel, l: Ledger, ev: Event, d: Channel)
    returns (u: Table, ms: Ledgers, more: seq<Event>)
    requires At(t, ls, evs, c, l) && c.remoteId == 7 && c.receiveWindow == 0 && ev == DoData(0, [])
    requires d == c.(receiveWindow := INITIAL_WINDOW_SIZE)
    ensures At(u, ms, more, d, Said(Heard(l, ev), WindowAdjust(INITIAL_WINDOW_SIZE))) && more == evs + [ev]
  {
    SaidOne(Heard(l, ev), WindowAdjust(INITIAL_WINDOW_SIZE));
    u, ms, more := Then(t, ls, evs, c, l, ev, d, [On(0, 7, WindowAdjust(INITIAL_WINDOW_SIZE))]);
  }

  /** An adjustment can be cut off at the largest window. */
  lemma AdjustsCanBeCapped() returns (t: Table, ls: Ledgers, evs: seq<Event>)
    ensures Reachable(t, ls, evs) && 0 in t.channels && 0 in ls
    ensures ls[0].sent + t.channels[0].sendWindow < ls[0].initial + ls[0].adjusts
    ensures evs == [OPEN, DoAdjust(0, U32_MAX)]
  {
    var c, l := Opened(100, 1000), Fresh(100);
    t, ls, evs := Opening(100, 1000);
    var ev := DoAdjust(0, U32_MAX);
    SaidOne(Heard(l, ev), Success);
    t, ls, evs := Then(t, ls, evs, c, l, ev, c.(sendWindow := U32_MAX), []);
  }

  /** Any banner that fits the window is sent, also one beyond the maximum packet size. */
  lemma BannerCanExceed(text: bytes, window: u32, maximum: u32) returns (t: Table, ls: Ledgers, evs: seq<Event>)
    requires maximum < |text| <= window
    ensures Reachable(t, ls, evs) && 0 in t.channels && t.channels[0].maximumPacketSize < |text|
    ensures Step(t, Banner(text)).Ok? && Step(t, Banner(text)).value.1 == [On(0, 7, Data(text))]
    ensures evs == [DoOpen(true, 7, window, maximum)]
  {
    t, ls, evs := Opening(window, maximum);
    var u, ms, more := Greet(t, ls, evs, Opened(window, maximum), Fresh(window), text);
  }
}
