/** Broadcasting of run progress: what every subscriber of one run receives, over
    any sequence of publish, subscribe, unsubscribe, complete and receive. */
module ProgressHub {
  import opened Prelude

  const BUF_SIZE: nat := 20
  const SUB_CHAN_CAP: nat := 32

  datatype Message = Message(
    kind: string, step: int, totalSteps: int, currentDate: string, targetDate: string,
    pct: real, elapsedMs: int, etaMs: int, measurements: int)

  datatype TerminalEvent = TerminalEvent(status: string, error: string)

  datatype Event = Progress(msg: Message) | Terminal(evt: TerminalEvent)

  type ChanId = nat

  /** Why a channel is no longer fed. */
  datatype Fate =
    | Live
    | Dropped        // full when a message was published
    | Unsubscribed
    | Finished       // got the terminal event
    | FinishedFull   // full when the run completed
    | Late           // subscribed after completion

  /** A buffered channel: all events ever sent, how many of them the subscriber
      has taken, and when it subscribed. */
  datatype Chan = Chan(sent: seq<Event>, received: nat, closed: bool, joined: nat, fate: Fate)

  predicate HasRoom(c: Chan) {
    |c.sent| - c.received < SUB_CHAN_CAP
  }

  /** A send; on a closed channel it would panic, on a full one it would block. */
  function Send(c: Chan, e: Event): Chan
    requires !c.closed && HasRoom(c)
  {
    c.(sent := c.sent + [e])
  }

  /** Closing a closed channel would panic. */
  function Close(c: Chan, fate: Fate): Chan
    requires !c.closed
  {
    c.(closed := true, fate := fate)
  }

  /** The state of one run's broadcaster. */
  datatype Hub = Hub(
    history: seq<Message>,           // everything published
    subs: seq<ChanId>,
    chans: map<ChanId, Chan>,
    terminal: Option<TerminalEvent>)

  ghost predicate Open(chans: map<ChanId, Chan>, subs: seq<ChanId>) {
    forall c :: c in subs ==> c in chans && !chans[c].closed
  }

  // -------------------------------------------------------------- operations

  function Deliver(c: Chan, e: Event): Chan
    requires !c.closed
  {
    if HasRoom(c) then Send(c, e) else Close(c, Dropped)
  }

  function Finish(c: Chan, t: TerminalEvent): Chan
    requires !c.closed
  {
    if HasRoom(c) then Close(Send(c, Terminal(t)), Finished) else Close(c, FinishedFull)
  }

  /** The subscribers that still have room, in order. */
  function Alive(chans: map<ChanId, Chan>, subs: seq<ChanId>): seq<ChanId>
    requires Open(chans, subs)
  {
    if subs == [] then []
    else
      var n := |subs| - 1;
      Alive(chans, subs[..n]) + (if HasRoom(chans[subs[n]]) then [subs[n]] else [])
  }

  function FanOut(chans: map<ChanId, Chan>, subs: seq<ChanId>, e: Event): map<ChanId, Chan>
    requires Open(chans, subs)
  {
    map c | c in chans :: if c in subs then Deliver(chans[c], e) else chans[c]
  }

  function Publish(h: Hub, msg: Message): Hub
    requires Open(h.chans, h.subs)
  {
    h.(history := h.history + [msg],
       subs := Alive(h.chans, h.subs),
       chans := FanOut(h.chans, h.subs, Progress(msg)))
  }

  function Replayed(n: nat): nat {
    if n < BUF_SIZE then n else BUF_SIZE
  }

  function Events(msgs: seq<Message>): seq<Event> {
    seq(|msgs|, i requires 0 <= i < |msgs| => Progress(msgs[i]))
  }

  /** Where the replay for a subscriber that joins at n begins. */
  function ReplayStart(n: nat): nat {
    n - Replayed(n)
  }

  function Subscribe(h: Hub, c: ChanId): Hub {
    var n := |h.history|;
    if h.terminal.Some? then
      h.(chans := h.chans[c := Chan([Terminal(h.terminal.value)], 0, true, n, Late)])
    else
      h.(chans := h.chans[c := Chan(Events(h.history[ReplayStart(n)..]), 0, false, n, Live)],
         subs := h.subs + [c])
  }

  function Without(subs: seq<ChanId>, c: ChanId): seq<ChanId> {
    if subs == [] then [] else if subs[0] == c then subs[1..] else [subs[0]] + Without(subs[1..], c)
  }

  function Unsubscribe(h: Hub, c: ChanId): Hub
    requires Open(h.chans, h.subs)
  {
    if c in h.subs then
      h.(subs := Without(h.subs, c), chans := h.chans[c := Close(h.chans[c], Unsubscribed)])
    else h
  }

  function Complete(h: Hub, t: TerminalEvent): Hub
    requires Open(h.chans, h.subs)
  {
    if h.terminal.Some? then h
    else
      h.(terminal := Some(t), subs := [],
         chans := map c | c in h.chans :: if c in h.subs then Finish(h.chans[c], t) else h.chans[c])
  }

  function Receive(h: Hub, c: ChanId): Hub {
    if c in h.chans && h.chans[c].received < |h.chans[c].sent| then
      h.(chans := h.chans[c := h.chans[c].(received := h.chans[c].received + 1)])
    else h
  }

  // -------------------------------------------------------------- invariant

  /** The number of progress events sent on c. */
  function ProgressCount(c: Chan): nat {
    if (c.fate.Finished? || c.fate.Late?) && c.sent != [] then |c.sent| - 1 else |c.sent|
  }

  /** c carries a gap-free stretch of the history, from at most BUF_SIZE messages
      before it subscribed, then at most one terminal event, which comes last. */
  ghost predicate Segment(history: seq<Message>, terminal: Option<TerminalEvent>, c: Chan) {
    var n, start := ProgressCount(c), ReplayStart(c.joined);
    && c.joined <= |history| && c.received <= |c.sent|
    && |c.sent| - c.received <= SUB_CHAN_CAP
    && if c.fate.Late? then terminal.Some? && c.sent == [Terminal(terminal.value)]
       else
         && c.joined <= start + n <= |history|
         && c.sent[..n] == Events(history[start..start + n])
         && (c.fate.Live? ==> start + n == |history|)
         && (c.fate.Dropped? ==> start + n < |history|)
         && (c.fate.Finished? ==> terminal.Some? && c.sent == c.sent[..n] + [Terminal(terminal.value)])
         && (c.fate.FinishedFull? ==> terminal.Some?)
  }

  ghost predicate Inv(h: Hub) {
    && Distinct(h.subs)
    && (forall c :: c in h.subs <==> c in h.chans && h.chans[c].fate.Live?)
    && (forall c :: c in h.chans ==>
          (h.chans[c].closed <==> !h.chans[c].fate.Live?) && Segment(h.history, h.terminal, h.chans[c]))
    && (h.terminal.Some? ==> h.subs == [])
  }

  lemma {:induction false} AliveIsFilter(chans: map<ChanId, Chan>, subs: seq<ChanId>)
    requires Open(chans, subs)
    ensures forall c :: c in Alive(chans, subs) <==> c in subs && HasRoom(chans[c])
    ensures Distinct(subs) ==> Distinct(Alive(chans, subs))
  {
    if subs != [] {
      var n := |subs| - 1;
      AliveIsFilter(chans, subs[..n]);
      assert subs == subs[..n] + [subs[n]];
      assert Distinct(subs) ==> subs[n] !in subs[..n];
    }
  }

  lemma SegmentGrows(history: seq<Message>, terminal: Option<TerminalEvent>, c: Chan, msg: Message)
    requires Segment(history, terminal, c) && !c.fate.Live?
    ensures Segment(history + [msg], terminal, c)
  {
    var n, start := ProgressCount(c), ReplayStart(c.joined);
    if !c.fate.Late? {
      assert (history + [msg])[start..start + n] == history[start..start + n];
    }
  }

  lemma DeliverSegment(history: seq<Message>, terminal: Option<TerminalEvent>, c: Chan, msg: Message)
    requires Segment(history, terminal, c) && c.fate.Live? && !c.closed
    ensures Segment(history + [msg], terminal, Deliver(c, Progress(msg)))
  {
    var n, start := ProgressCount(c), ReplayStart(c.joined);
    var h := history + [msg];
    assert h[start..start + n] == history[start..start + n];
    assert c.sent == c.sent[..n];
    if HasRoom(c) {
      var d := Send(c, Progress(msg));
      EventsGrow(history[start..start + n], msg);
      assert h[start..start + n + 1] == history[start..start + n] + [msg];
      assert d.sent[..n + 1] == d.sent;
    }
  }

  lemma EventsGrow(msgs: seq<Message>, msg: Message)
    ensures Events(msgs + [msg]) == Events(msgs) + [Progress(msg)]
  {
  }

  lemma PublishKeeps(h: Hub, msg: Message)
    requires Inv(h)
    ensures Inv(Publish(h, msg))
  {
    var h' := Publish(h, msg);
    AliveIsFilter(h.chans, h.subs);
    forall c | c in h'.chans
      ensures Segment(h'.history, h'.terminal, h'.chans[c])
    {
      if c in h.subs {
        DeliverSegment(h.history, h.terminal, h.chans[c], msg);
      } else {
        SegmentGrows(h.history, h.terminal, h.chans[c], msg);
      }
    }
  }

  lemma SubscribeKeeps(h: Hub, c: ChanId)
    requires Inv(h) && c !in h.chans
    ensures Inv(Subscribe(h, c))
  {
    var n := |h.history|;
    if h.terminal.None? {
      var d := Subscribe(h, c).chans[c];
      assert d.sent[..|d.sent|] == d.sent;
      assert h.history[ReplayStart(n)..n] == h.history[ReplayStart(n)..];
    }
  }

  lemma {:induction false} WithoutOne(subs: seq<ChanId>, c: ChanId)
    requires Distinct(subs) && c in subs
    ensures Distinct(Without(subs, c))
    ensures forall d :: d in Without(subs, c) <==> d in subs && d != c
  {
    if subs[0] != c {
      assert subs == [subs[0]] + subs[1..];
      WithoutOne(subs[1..], c);
      assert subs[0] !in subs[1..];
      assert subs[0] !in Without(subs[1..], c);
    } else {
      assert subs == [c] + subs[1..];
      assert c !in subs[1..];
    }
  }

  lemma UnsubscribeKeeps(h: Hub, c: ChanId)
    requires Inv(h)
    ensures Inv(Unsubscribe(h, c))
  {
    if c in h.subs {
      WithoutOne(h.subs, c);
    }
  }

  lemma CompleteKeeps(h: Hub, t: TerminalEvent)
    requires Inv(h)
    ensures Inv(Complete(h, t))
  {
    if h.terminal.None? {
      var h' := Complete(h, t);
      forall c | c in h'.chans
        ensures Segment(h'.history, h'.terminal, h'.chans[c])
      {
        var d := h.chans[c];
        assert Segment(h.history, h.terminal, d);
        if c in h.subs {
          assert d.sent[..|d.sent|] == d.sent;
          assert (d.sent + [Terminal(t)])[..|d.sent|] == d.sent;
        }
      }
    }
  }

  lemma ReceiveKeeps(h: Hub, c: ChanId)
    requires Inv(h)
    ensures Inv(Receive(h, c))
  {
    var h' := Receive(h, c);
    if h' != h {
      TakeSegment(h.history, h.terminal, h.chans[c]);
    }
    forall d | d in h'.chans
      ensures (h'.chans[d].closed <==> !h'.chans[d].fate.Live?) && Segment(h.history, h.terminal, h'.chans[d])
    {
      assert d != c ==> h'.chans[d] == h.chans[d];
    }
  }

  lemma TakeSegment(history: seq<Message>, terminal: Option<TerminalEvent>, c: Chan)
    requires Segment(history, terminal, c) && c.received < |c.sent|
    ensures Segment(history, terminal, c.(received := c.received + 1))
  {
  }

  // --------------------------------------------------------------- all runs

  datatype Op =
    | PublishOp(msg: Message)
    | SubscribeOp(c: ChanId)
    | UnsubscribeOp(c: ChanId)
    | CompleteOp(t: TerminalEvent)
    | ReceiveOp(c: ChanId)

  function Apply(h: Hub, op: Op): (h': Hub)
    requires Open(h.chans, h.subs)
  {
    match op
    case PublishOp(msg) => Publish(h, msg)
    case SubscribeOp(c) => if c in h.chans then h else Subscribe(h, c)
    case UnsubscribeOp(c) => Unsubscribe(h, c)
    case CompleteOp(t) => Complete(h, t)
    case ReceiveOp(c) => Receive(h, c)
  }

  const EMPTY := Hub([], [], map[], None)

  /** Any sequence of calls is well defined: no channel is sent to or closed
      after it was closed, and no send blocks. */
  ghost function Exec(ops: seq<Op>): (h: Hub)
    ensures Inv(h)
  {
    if ops == [] then EMPTY
    else
      var h := Exec(ops[..|ops| - 1]);
      var op := ops[|ops| - 1];
      ApplyKeeps(h, op);
      Apply(h, op)
  }

  lemma ApplyKeeps(h: Hub, op: Op)
    requires Inv(h)
    ensures Inv(Apply(h, op))
  {
    match op {
      case PublishOp(msg) => PublishKeeps(h, msg);
      case SubscribeOp(c) => if c !in h.chans { SubscribeKeeps(h, c); }
      case UnsubscribeOp(c) => UnsubscribeKeeps(h, c);
      case CompleteOp(t) => CompleteKeeps(h, t);
      case ReceiveOp(c) => ReceiveKeeps(h, c);
    }
  }

  /** What a subscriber has been sent: the messages from at most 20 before its
      subscription up to some point, in order and without gaps, and after them
      nothing, or the terminal event. Without the terminal event the channel is
      still live, or was dropped or unsubscribed, or was full when the run
      completed; a late subscriber gets the terminal event alone. */
  ghost predicate Delivered(h: Hub, d: Chan) {
    && (d.fate.Late? ==> h.terminal.Some? && d.sent == [Terminal(h.terminal.value)])
    && (!d.fate.Late? ==>
          exists lo, hi :: lo <= d.joined <= hi && d.joined - lo == Min(d.joined, 20)
              && DeliveredUpTo(h, d, lo, hi))
    && (d.closed <==> !d.fate.Live?)
  }

  lemma InvDelivers(h: Hub, c: ChanId)
    requires Inv(h) && c in h.chans
    ensures Delivered(h, h.chans[c])
  {
    var d := h.chans[c];
    if !d.fate.Late? {
      var n, start := ProgressCount(d), ReplayStart(d.joined);
      assert d.sent == d.sent[..n] + d.sent[n..];
      assert DeliveredUpTo(h, d, start, start + n);
    }
  }

  /** Delivery holds for every subscriber after any sequence of calls. */
  lemma Delivery(ops: seq<Op>, c: ChanId)
    requires c in Exec(ops).chans
    ensures Delivered(Exec(ops), Exec(ops).chans[c])
  {
    InvDelivers(Exec(ops), c);
  }

  ghost predicate DeliveredUpTo(h: Hub, d: Chan, lo: int, hi: int) {
    && 0 <= lo <= hi <= |h.history|
    && match d.fate
       case Finished => h.terminal.Some? && d.sent == Events(h.history[lo..hi]) + [Terminal(h.terminal.value)]
       case Live => hi == |h.history| && d.sent == Events(h.history[lo..hi])
       case Dropped => hi < |h.history| && d.sent == Events(h.history[lo..hi])
       case Unsubscribed => d.sent == Events(h.history[lo..hi])
       case FinishedFull => h.terminal.Some? && d.sent == Events(h.history[lo..hi])
       case Late => false
  }

  // ------------------------------------------------- who is dropped, who is not

  function Unread(c: Chan): int {
    |c.sent| - c.received
  }

  /** Publishing reaches every subscriber with fewer than 32 unread events, and
      closes exactly the others. */
  lemma PublishExact(h: Hub, msg: Message, c: ChanId)
    requires Inv(h) && c in h.chans
    ensures var h' := Publish(h, msg);
            && c in h'.chans && h'.history == h.history + [msg]
            && (c !in h.subs ==> h'.chans[c] == h.chans[c] && c !in h'.subs)
            && (c in h.subs && Unread(h.chans[c]) < 32 ==>
                  && h'.chans[c].sent == h.chans[c].sent + [Progress(msg)]
                  && !h'.chans[c].closed && c in h'.subs)
            && (c in h.subs && Unread(h.chans[c]) >= 32 ==>
                  && h'.chans[c].sent == h.chans[c].sent
                  && h'.chans[c].closed && c !in h'.subs)
  {
    PublishKeeps(h, msg);
  }

  /** Completion closes every subscriber, after the terminal event where there is
      room for it; a second completion changes nothing. */
  lemma CompleteExact(h: Hub, t: TerminalEvent, c: ChanId)
    requires Inv(h) && c in h.chans
    ensures var h' := Complete(h, t);
            && c in h'.chans && h'.history == h.history && h'.subs == []
            && h'.terminal == Some(if h.terminal.Some? then h.terminal.value else t)
            && h'.chans[c].closed
            && (c !in h.subs ==> h'.chans[c] == h.chans[c])
            && (c in h.subs ==>
                  h'.chans[c].sent == h.chans[c].sent + if Unread(h.chans[c]) < 32 then [Terminal(t)] else [])
  {
  }

  /** Leaving closes the one channel, without another event. */
  lemma UnsubscribeExact(h: Hub, c: ChanId)
    requires Inv(h)
    ensures var h' := Unsubscribe(h, c);
            && h'.history == h.history && h'.terminal == h.terminal && h'.chans.Keys == h.chans.Keys
            && (forall d :: d in h'.subs <==> d in h.subs && d != c)
            && (forall d :: d in h.chans && d != c ==> h'.chans[d] == h.chans[d])
            && (c in h.chans ==> h'.chans[c].closed && h'.chans[c].sent == h.chans[c].sent)
  {
    UnsubscribeKeeps(h, c);
  }

  /** c is subscribed, or the run has completed and c got the terminal event. */
  ghost predicate InTouch(h: Hub, c: ChanId) {
    && c in h.chans
    && if h.terminal.None? then h.chans[c].fate.Live? else h.chans[c].fate.Finished?
  }

  lemma StaysInTouch(h: Hub, op: Op, c: ChanId)
    requires Inv(h) && InTouch(h, c) && op != UnsubscribeOp(c) && Unread(h.chans[c]) < 32
    ensures InTouch(Apply(h, op), c) && Apply(h, op).chans[c].joined == h.chans[c].joined
  {
    ApplyKeeps(h, op);
  }

  /** After ops[..j] no step j onwards makes c leave or fall behind. */
  ghost predicate KeepsUp(ops: seq<Op>, j: nat, c: ChanId) {
    j < |ops| && ops[j] != UnsubscribeOp(c) && (c in Exec(ops[..j]).chans ==> Unread(Exec(ops[..j]).chans[c]) < 32)
  }

  lemma ExecNext(ops: seq<Op>, j: nat)
    requires j < |ops|
    ensures Exec(ops[..j + 1]) == Apply(Exec(ops[..j]), ops[j])
  {
    assert ops[..j + 1][..j] == ops[..j];
  }

  lemma {:induction false} InTouchThroughout(ops: seq<Op>, k: nat, m: nat, c: ChanId)
    requires k <= m <= |ops| && InTouch(Exec(ops[..k]), c)
    requires forall j: nat :: k <= j < m ==> KeepsUp(ops, j, c)
    ensures InTouch(Exec(ops[..m]), c) && Exec(ops[..m]).chans[c].joined == Exec(ops[..k]).chans[c].joined
    decreases m
  {
    if k < m {
      InTouchThroughout(ops, k, m - 1, c);
      assert KeepsUp(ops, m - 1, c);
      ExecNext(ops, m - 1);
      StaysInTouch(Exec(ops[..m - 1]), ops[m - 1], c);
    }
  }

  /** c has every message from at most 20 before it joined, and the terminal event
      last once the run has completed. */
  ghost predicate HasAll(h: Hub, d: Chan) {
    var lo := d.joined - Min(d.joined, 20);
    && (h.terminal.None? ==> 0 <= lo <= |h.history| && d.sent == Events(h.history[lo..]))
    && (h.terminal.Some? ==> d.sent != [] && d.sent[|d.sent| - 1] == Terminal(h.terminal.value))
  }

  lemma InTouchHasAll(h: Hub, c: ChanId)
    requires Inv(h) && InTouch(h, c)
    ensures HasAll(h, h.chans[c])
  {
    InvDelivers(h, c);
    if h.terminal.None? {
      assert h.history[ReplayStart(h.chans[c].joined)..|h.history|] == h.history[ReplayStart(h.chans[c].joined)..];
    }
  }

  /** A subscriber that keeps up misses nothing: while it never lets 32 events
      wait and does not leave, it has been sent every message from at most 20
      before it joined, and the terminal event last once the run completed. */
  lemma PromptSubscriber(ops: seq<Op>, k: nat, c: ChanId)
    requires k <= |ops| && c in Exec(ops[..k]).subs
    requires forall j: nat :: k <= j < |ops| ==> KeepsUp(ops, j, c)
    ensures c in Exec(ops).chans && HasAll(Exec(ops), Exec(ops).chans[c])
    ensures Exec(ops).chans[c].joined == Exec(ops[..k]).chans[c].joined
  {
    InTouchThroughout(ops, k, |ops|, c);
    assert ops[..|ops|] == ops;
    InTouchHasAll(Exec(ops), c);
  }
}
