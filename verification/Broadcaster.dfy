/** The broadcaster of one run as the program has it: a ring of 20 slots, a slice
    of subscriber channels that is compacted in place, and the line parser that
    feeds it. Its abstract value is a ProgressHub.Hub. */
module Broadcaster {
  import opened Prelude
  import opened ProgressHub

  // -------------------------------------------------------------------- ring

  /** The slot of the i-th oldest message. */
  function RingIndex(head: nat, i: nat): (k: nat)
    ensures k < BUF_SIZE
    ensures head < BUF_SIZE && i <= BUF_SIZE ==> k == if head + i < BUF_SIZE then head + i else head + i - BUF_SIZE
  {
    (head + i) % BUF_SIZE
  }

  /** The ring holds exactly the last min(20, n) of the n messages published. */
  ghost predicate RingHolds(buf: seq<Message>, head: nat, count: nat, history: seq<Message>) {
    && |buf| == BUF_SIZE && head < BUF_SIZE
    && count == Replayed(|history|)
    && (forall i: nat :: i < count ==> buf[RingIndex(head, i)] == history[|history| - count + i])
  }

  lemma RingPush(buf: seq<Message>, head: nat, count: nat, history: seq<Message>, msg: Message)
    requires RingHolds(buf, head, count, history)
    ensures var buf' := buf[RingIndex(head, count) := msg];
            if count < BUF_SIZE then RingHolds(buf', head, count + 1, history + [msg])
            else RingHolds(buf', RingIndex(head, 1), count, history + [msg])
  {
    var buf' := buf[RingIndex(head, count) := msg];
    var h := history + [msg];
    if count < BUF_SIZE {
      forall i: nat | i < count + 1
        ensures buf'[RingIndex(head, i)] == h[|h| - (count + 1) + i]
      {
        if i < count {
          assert buf[RingIndex(head, i)] == history[|history| - count + i];
        }
      }
    } else {
      var head' := RingIndex(head, 1);
      forall i: nat | i < count
        ensures buf'[RingIndex(head', i)] == h[|h| - count + i]
      {
        if i + 1 < count {
          assert buf[RingIndex(head, i + 1)] == history[|history| - count + i + 1];
          assert RingIndex(head', i) == RingIndex(head, i + 1);
        }
      }
    }
  }

  lemma {:induction false} WithoutAt(subs: seq<ChanId>, i: nat)
    requires i < |subs| && subs[i] !in subs[..i]
    ensures Without(subs, subs[i]) == subs[..i] + subs[i + 1..]
  {
    if i > 0 {
      assert subs[0] in subs[..i];
      assert subs[1..][..i - 1] == subs[..i][1..];
      WithoutAt(subs[1..], i - 1);
    }
  }

  lemma OpenPrefix(chans: map<ChanId, Chan>, subs: seq<ChanId>, i: nat)
    requires i <= |subs| && Open(chans, subs)
    ensures Open(chans, subs[..i])
  {
    assert forall c :: c in subs[..i] ==> c in subs;
  }

  /** One more subscriber, who is none of those before. */
  lemma FanOutStep(chans: map<ChanId, Chan>, subs: seq<ChanId>, i: nat, e: Event)
    requires i < |subs| && Distinct(subs) && Open(chans, subs) && Open(chans, subs[..i]) && Open(chans, subs[..i + 1])
    ensures subs[i] in chans && !chans[subs[i]].closed && FanOut(chans, subs[..i], e)[subs[i]] == chans[subs[i]]
    ensures FanOut(chans, subs[..i + 1], e) == FanOut(chans, subs[..i], e)[subs[i] := Deliver(chans[subs[i]], e)]
  {
    assert subs[i] in subs && subs[i] !in subs[..i];
    assert subs[..i + 1] == subs[..i] + [subs[i]];
  }

  /** The survivors among the first i subscribers. */
  function AliveTo(chans: map<ChanId, Chan>, subs: seq<ChanId>, i: nat): seq<ChanId>
    requires i <= |subs| && Open(chans, subs)
  {
    if i == 0 then []
    else AliveTo(chans, subs, i - 1) + (if HasRoom(chans[subs[i - 1]]) then [subs[i - 1]] else [])
  }

  /** The channels once the first i subscribers are served. */
  function SentTo(chans: map<ChanId, Chan>, subs: seq<ChanId>, i: nat, e: Event): map<ChanId, Chan>
    requires i <= |subs| && Open(chans, subs)
  {
    if i == 0 then chans else SentTo(chans, subs, i - 1, e)[subs[i - 1] := Deliver(chans[subs[i - 1]], e)]
  }

  lemma {:induction false} AliveToPrefix(chans: map<ChanId, Chan>, subs: seq<ChanId>, i: nat)
    requires i <= |subs| && Open(chans, subs) && Open(chans, subs[..i])
    ensures AliveTo(chans, subs, i) == Alive(chans, subs[..i])
  {
    if i > 0 {
      OpenPrefix(chans, subs, i - 1);
      AliveToPrefix(chans, subs, i - 1);
      assert subs[..i][..i - 1] == subs[..i - 1];
    }
  }

  lemma {:induction false} SentToPrefix(chans: map<ChanId, Chan>, subs: seq<ChanId>, i: nat, e: Event)
    requires i <= |subs| && Distinct(subs) && Open(chans, subs) && Open(chans, subs[..i])
    ensures SentTo(chans, subs, i, e) == FanOut(chans, subs[..i], e)
  {
    if i == 0 {
      assert subs[..0] == [];
    } else {
      OpenPrefix(chans, subs, i - 1);
      SentToPrefix(chans, subs, i - 1, e);
      FanOutStep(chans, subs, i - 1, e);
    }
  }

  lemma SentIs(chans: map<ChanId, Chan>, subs: seq<ChanId>, i: nat, e: Event)
    requires i <= |subs| && Distinct(subs) && Open(chans, subs)
    ensures i == |subs| ==>
              AliveTo(chans, subs, i) == Alive(chans, subs) && SentTo(chans, subs, i, e) == FanOut(chans, subs, e)
    ensures i < |subs| ==> subs[i] in chans && !chans[subs[i]].closed
                           && subs[i] in SentTo(chans, subs, i, e)
                           && SentTo(chans, subs, i, e)[subs[i]] == chans[subs[i]]
  {
    OpenPrefix(chans, subs, i);
    SentToPrefix(chans, subs, i, e);
    AliveToPrefix(chans, subs, i);
    if i < |subs| {
      OpenPrefix(chans, subs, i + 1);
      FanOutStep(chans, subs, i, e);
    } else {
      assert subs[..i] == subs;
    }
  }

  /** What the subscriber slice must satisfy for no send or close to panic. */
  ghost predicate Sendable(h: Hub) {
    Distinct(h.subs) && Open(h.chans, h.subs)
  }

  lemma InvSendable(h: Hub)
    requires Inv(h)
    ensures Sendable(h)
  {
  }

  lemma PublishSendable(h: Hub, msg: Message)
    requires Sendable(h)
    ensures Sendable(ProgressHub.Publish(h, msg))
  {
    AliveIsFilter(h.chans, h.subs);
  }

  lemma UnsubscribeSendable(h: Hub, c: ChanId)
    requires Sendable(h)
    ensures Sendable(ProgressHub.Unsubscribe(h, c))
  {
    if c in h.subs {
      WithoutOne(h.subs, c);
    }
  }

  lemma CompleteView(h: Hub, t: TerminalEvent, chans: map<ChanId, Chan>)
    requires Sendable(h) && h.terminal.None?
    requires chans == map c | c in h.chans :: if c in h.subs then Finish(h.chans[c], t) else h.chans[c]
    ensures ProgressHub.Complete(h, t) == Hub(h.history, [], chans, Some(t))
  {
  }

  function NextEvent(chans: map<ChanId, Chan>, c: ChanId): Option<Event> {
    if c in chans && chans[c].received < |chans[c].sent| then Some(chans[c].sent[chans[c].received]) else None
  }

  // ------------------------------------------------------------- broadcaster

  class RunBroadcaster {
    var buf: array<Message>
    var head: nat
    var count: nat
    var slots: array<ChanId>             // backing array of the subscriber slice
    var nsubs: nat
    var chans: map<ChanId, Chan>
    var nextId: ChanId
    var terminal: Option<TerminalEvent>
    var history: seq<Message>            // log of everything published

    ghost predicate Valid()
      reads this, buf, slots
    {
      Usable() && Inv(View())
    }

    /** What the in-place updates rely on. */
    ghost predicate Usable()
      reads this, buf, slots
    {
      && RingHolds(buf[..], head, count, history)
      && nsubs <= slots.Length
      && (forall c :: c in chans ==> c < nextId)
      && Sendable(View())
    }

    ghost function View(): Hub
      reads this, slots
      requires nsubs <= slots.Length
    {
      Hub(history, slots[..nsubs], chans, terminal)
    }

    constructor (filler: Message)
      ensures Valid() && View() == EMPTY && fresh(buf) && fresh(slots)
    {
      buf := new Message[BUF_SIZE](_ => filler);
      slots := new ChanId[0];
      head, count, nsubs, nextId := 0, 0, 0, 0;
      chans, terminal, history := map[], None, [];
    }

    /** Puts msg into the ring, overwriting the oldest message when it is full. */
    method Remember(msg: Message)
      requires RingHolds(buf[..], head, count, history)
      modifies this`head, this`count, this`history, buf
      ensures RingHolds(buf[..], head, count, history) && history == old(history) + [msg]
    {
      RingPush(buf[..], head, count, history, msg);
      ghost var was := buf[..];
      var idx := (head + count) % BUF_SIZE;
      buf[idx] := msg;
      assert buf[..] == was[RingIndex(head, count) := msg];
      history := history + [msg];
      if count < BUF_SIZE {
        count := count + 1;
      } else {
        head := (head + 1) % BUF_SIZE;
      }
    }

    /** The select on one channel: a send if there is room, and a close if not. */
    method SendOrClose(c: ChanId, e: Event) returns (sent: bool)
      requires c in chans && !chans[c].closed
      modifies this`chans
      ensures sent == HasRoom(old(chans[c]))
      ensures chans == old(chans)[c := Deliver(old(chans[c]), e)]
    {
      sent := HasRoom(chans[c]);
      if sent {
        chans := chans[c := Send(chans[c], e)];
      } else {
        chans := chans[c := Close(chans[c], Dropped)];
      }
    }

    /** Sends e to every subscriber with room and closes the others, keeping the
        survivors, in order, at the front of the same backing array. */
    method FanOutInPlace(e: Event)
      requires nsubs <= slots.Length && Distinct(slots[..nsubs]) && Open(chans, slots[..nsubs])
      modifies this`nsubs, this`chans, slots
      ensures nsubs <= slots.Length
      ensures slots[..nsubs] == Alive(old(chans), old(slots[..nsubs]))
      ensures chans == FanOut(old(chans), old(slots[..nsubs]), e)
    {
      ghost var subs, was := slots[..nsubs], chans;
      var n, kept := nsubs, 0;
      for i := 0 to n
        invariant kept <= i && nsubs == n == |subs|
        invariant forall j :: i <= j < n ==> slots[j] == subs[j]
        invariant slots[..kept] == AliveTo(was, subs, i)
        invariant chans == SentTo(was, subs, i, e)
      {
        SentIs(was, subs, i, e);
        var c := slots[i];
        var sent := SendOrClose(c, e);
        if sent {
          ghost var front := slots[..kept];
          slots[kept] := c;
          kept := kept + 1;
          assert slots[..kept] == front + [c];
        }
      }
      SentIs(was, subs, n, e);
      nsubs := kept;
    }

    method RememberAndFanOut(msg: Message)
      requires Usable()
      modifies this`head, this`count, this`history, this`nsubs, this`chans, buf, slots
      ensures Usable() && View() == ProgressHub.Publish(old(View()), msg)
    {
      PublishSendable(View(), msg);
      Remember(msg);
      FanOutInPlace(Progress(msg));
    }

    method Publish(msg: Message)
      requires Valid()
      modifies this`head, this`count, this`history, this`nsubs, this`chans, buf, slots
      ensures Valid() && View() == ProgressHub.Publish(old(View()), msg)
    {
      ghost var h := View();
      InvSendable(h);
      PublishKeeps(h, msg);
      RememberAndFanOut(msg);
      assert View() == ProgressHub.Publish(h, msg);
    }

    /** The newest message, if there is any. */
    method Latest() returns (msg: Option<Message>)
      requires Valid()
      ensures msg == if history == [] then None else Some(history[|history| - 1])
    {
      if count == 0 {
        return None;
      }
      assert buf[..][RingIndex(head, count - 1)] == history[|history| - count + (count - 1)];
      return Some(buf[(head + count - 1) % BUF_SIZE]);
    }

    /** A new channel with the ring replayed into it. It has room for all of it. */
    method ReplayChannel() returns (ch: Chan)
      requires RingHolds(buf[..], head, count, history)
      ensures ch == Chan(Events(history[ReplayStart(|history|)..]), 0, false, |history|, Live)
    {
      ch := Chan([], 0, false, |history|, Live);
      ghost var start := ReplayStart(|history|);
      for i := 0 to count
        invariant ch == Chan(Events(history[start..start + i]), 0, false, |history|, Live)
      {
        assert buf[..][RingIndex(head, i)] == history[start + i];
        ch := Send(ch, Progress(buf[(head + i) % BUF_SIZE]));
        assert history[start..start + i + 1] == history[start..start + i] + [history[start + i]];
      }
      assert history[start..start + count] == history[start..];
    }

    /** append(subs, c). */
    method Append(c: ChanId)
      requires nsubs <= slots.Length
      modifies this`slots, this`nsubs, slots
      ensures nsubs <= slots.Length && slots[..nsubs] == old(slots[..nsubs]) + [c]
      ensures slots == old(slots) || fresh(slots)
    {
      if nsubs == slots.Length {
        var bigger := new ChanId[2 * nsubs + 1];
        forall i | 0 <= i < nsubs {
          bigger[i] := slots[i];
        }
        slots := bigger;
      }
      slots[nsubs] := c;
      nsubs := nsubs + 1;
    }

    /** Replays the ring into a new channel, or hands out the terminal event of
        a run that is over. */
    method Subscribe() returns (c: ChanId)
      requires Valid()
      modifies this`slots, this`nsubs, this`chans, this`nextId, slots
      ensures Valid() && c !in old(chans) && View() == ProgressHub.Subscribe(old(View()), c)
      ensures slots == old(slots) || fresh(slots)
    {
      c := nextId;
      SubscribeKeeps(View(), c);
      nextId := nextId + 1;
      if terminal.Some? {
        chans := chans[c := Chan([Terminal(terminal.value)], 0, true, |history|, Late)];
        return;
      }
      var ch := ReplayChannel();
      chans := chans[c := ch];
      Append(c);
    }

    /** append(subs[:i], subs[i+1:]...), shifting within the backing array. */
    method RemoveAt(i: nat)
      requires i < nsubs <= slots.Length
      modifies this`nsubs, slots
      ensures nsubs <= slots.Length && slots[..nsubs] == old(slots[..i] + slots[i + 1..nsubs])
    {
      forall j | i <= j < nsubs - 1 {
        slots[j] := slots[j + 1];
      }
      nsubs := nsubs - 1;
    }

    method Find(c: ChanId) returns (i: nat)
      requires nsubs <= slots.Length
      ensures i <= nsubs && c !in slots[..i] && (i < nsubs ==> slots[i] == c)
    {
      i := 0;
      while i < nsubs && slots[i] != c
        invariant i <= nsubs && c !in slots[..i]
      {
        i := i + 1;
      }
    }

    /** The function that Subscribe hands out. Calling it again, or after the
        channel was dropped or the run completed, does nothing. */
    method Unsubscribe(c: ChanId)
      requires Valid()
      modifies this`nsubs, this`chans, slots
      ensures Valid() && View() == ProgressHub.Unsubscribe(old(View()), c)
    {
      ghost var h := View();
      UnsubscribeKeeps(h, c);
      RemoveAndClose(c);
      assert View() == ProgressHub.Unsubscribe(h, c);
    }

    method RemoveAndClose(c: ChanId)
      requires Usable()
      modifies this`nsubs, this`chans, slots
      ensures Usable() && View() == ProgressHub.Unsubscribe(old(View()), c)
    {
      ghost var h := View();
      UnsubscribeSendable(h, c);
      var i := Find(c);
      if i < nsubs {
        assert h.subs[i] == c && slots[..i] == h.subs[..i] && slots[i + 1..nsubs] == h.subs[i + 1..];
        WithoutAt(h.subs, i);
        RemoveAt(i);
        chans := chans[c := Close(chans[c], ProgressHub.Unsubscribed)];
      }
    }

    /** Sends t to every subscriber with room, and closes all of them. */
    method FinishAll(t: TerminalEvent)
      requires nsubs <= slots.Length && Distinct(slots[..nsubs]) && Open(chans, slots[..nsubs])
      modifies this`chans
      ensures chans == map c | c in old(chans) ::
                         if c in slots[..nsubs] then Finish(old(chans)[c], t) else old(chans)[c]
    {
      ghost var subs := slots[..nsubs];
      for i := 0 to nsubs
        invariant chans.Keys == old(chans).Keys
        invariant forall d :: d in old(chans) && d !in subs[..i] ==> chans[d] == old(chans)[d]
        invariant forall d :: d in subs[..i] ==> d in chans && chans[d] == Finish(old(chans)[d], t)
      {
        var c := slots[i];
        assert c == subs[i] && c in subs && c !in subs[..i];
        assert subs[..i + 1] == subs[..i] + [c];
        if HasRoom(chans[c]) {
          chans := chans[c := Close(Send(chans[c], Terminal(t)), Finished)];
        } else {
          chans := chans[c := Close(chans[c], FinishedFull)];
        }
      }
      assert subs[..nsubs] == subs;
    }

    /** A subscriber takes the next event from its channel, if there is one. */
    method Receive(c: ChanId) returns (e: Option<Event>)
      requires Valid()
      modifies this`chans
      ensures Valid() && View() == ProgressHub.Receive(old(View()), c)
      ensures e == NextEvent(old(chans), c)
    {
      ghost var h := View();
      ReceiveKeeps(h, c);
      e := TakeEvent(c);
      assert View() == ProgressHub.Receive(h, c);
    }

    method TakeEvent(c: ChanId) returns (e: Option<Event>)
      requires Usable()
      modifies this`chans
      ensures Usable() && View() == ProgressHub.Receive(old(View()), c)
      ensures e == NextEvent(old(chans), c)
    {
      e := NextEvent(chans, c);
      if e.Some? {
        chans := chans[c := chans[c].(received := chans[c].received + 1)];
      }
    }

    method Complete(t: TerminalEvent)
      requires Valid()
      modifies this`nsubs, this`chans, this`terminal
      ensures Valid() && View() == ProgressHub.Complete(old(View()), t)
    {
      if terminal.Some? {
        return;
      }
      ghost var h := View();
      InvSendable(h);
      CompleteKeeps(h, t);
      FinishAll(t);
      CompleteView(h, t, chans);
      terminal := Some(t);
      nsubs := 0;
      assert View() == ProgressHub.Complete(h, t);
    }
  }

  /** Every subscriber of a broadcaster has been sent what ProgressHub promises. */
  lemma BroadcasterDelivers(b: RunBroadcaster, c: ChanId)
    requires b.Valid() && c in b.chans
    ensures Delivered(b.View(), b.chans[c])
  {
    InvDelivers(b.View(), c);
  }

  // ------------------------------------------------------------- line parser

  type Bytes = seq<int>

  const NEWLINE := 10

  /** How one complete line becomes a message, or nothing: trimmed, skipped when
      empty or not decodable, and kept only when it is of type progress. */
  datatype Codec = Codec(trim: Bytes -> Bytes, decode: Bytes -> Option<Message>)

  function LineMessage(codec: Codec, line: Bytes): seq<Message> {
    var text := codec.trim(line);
    if text == [] then []
    else
      match codec.decode(text)
      case None => []
      case Some(m) => if m.kind == "progress" then [m] else []
  }

  /** The messages of the complete lines of a stream. */
  function Messages(codec: Codec, stream: Bytes): seq<Message>
    decreases |stream|
  {
    var i := IndexOf(stream, NEWLINE);
    if i < 0 then [] else LineMessage(codec, stream[..i]) + Messages(codec, stream[i + 1..])
  }

  /** What follows the last newline of a stream. */
  function Rest(stream: Bytes): Bytes
    decreases |stream|
  {
    var i := IndexOf(stream, NEWLINE);
    if i < 0 then stream else Rest(stream[i + 1..])
  }

  lemma FirstLine(a: Bytes, b: Bytes)
    requires IndexOf(a, NEWLINE) >= 0
    ensures var i := IndexOf(a, NEWLINE);
            IndexOf(a + b, NEWLINE) == i && (a + b)[..i] == a[..i] && (a + b)[i + 1..] == a[i + 1..] + b
  {
    var i := IndexOf(a, NEWLINE);
    assert a + b == a[..i] + [NEWLINE] + (a[i + 1..] + b);
    IndexOfFirst(a[..i], NEWLINE, a[i + 1..] + b);
  }

  /** Parsing a stream is parsing its first part and then, from the unfinished
      line on, the second. */
  lemma {:induction false} MessagesSplit(codec: Codec, a: Bytes, b: Bytes)
    ensures Messages(codec, a + b) == Messages(codec, a) + Messages(codec, Rest(a) + b)
    decreases |a|
  {
    if IndexOf(a, NEWLINE) >= 0 {
      var line, tail := NextLine(codec, a, b);
      MessagesSplit(codec, tail, b);
    }
  }

  /** The first line leaves a stream with what it means; whatever is appended
      to the stream is appended to the remainder. */
  lemma NextLine(codec: Codec, a: Bytes, b: Bytes) returns (line: seq<Message>, tail: Bytes)
    requires IndexOf(a, NEWLINE) >= 0
    ensures |tail| < |a| && Rest(a) == Rest(tail)
    ensures Messages(codec, a) == line + Messages(codec, tail)
    ensures Messages(codec, a + b) == line + Messages(codec, tail + b)
  {
    var i := IndexOf(a, NEWLINE);
    FirstLine(a, b);
    line, tail := LineMessage(codec, a[..i]), a[i + 1..];
  }

  lemma {:induction false} RestSplit(a: Bytes, b: Bytes)
    ensures Rest(a + b) == Rest(Rest(a) + b)
    decreases |a|
  {
    var i := IndexOf(a, NEWLINE);
    if i >= 0 {
      FirstLine(a, b);
      RestSplit(a[i + 1..], b);
      assert Rest(a) == Rest(a[i + 1..]);
      assert Rest(a + b) == Rest(a[i + 1..] + b);
    }
  }

  // What a stream publishes, in terms of its bytes.

  /** stream[from..to] is a line and stream[to] the newline that ends it. */
  datatype Line = Line(from: nat, to: nat)

  ghost predicate IsLine(stream: Bytes, l: Line) {
    && l.from <= l.to < |stream| && stream[l.to] == 10
    && (l.from == 0 || stream[l.from - 1] == 10)
    && (forall i :: l.from <= i < l.to ==> stream[i] != 10)
  }

  /** The line is not blank, and decodes to a message of type progress. */
  ghost predicate IsProgress(codec: Codec, stream: Bytes, l: Line) {
    && IsLine(stream, l)
    && var text := codec.trim(stream[l.from..l.to]);
       text != [] && codec.decode(text).Some? && codec.decode(text).value.kind == "progress"
  }

  ghost function Decoded(codec: Codec, stream: Bytes, l: Line): Message
    requires IsProgress(codec, stream, l)
  {
    codec.decode(codec.trim(stream[l.from..l.to])).value
  }

  /** msgs are the progress messages of the stream: one for each progress line,
      in the order of the lines. */
  ghost predicate Transcribes(codec: Codec, stream: Bytes, msgs: seq<Message>, lines: seq<Line>) {
    && |msgs| == |lines|
    && (forall i :: 0 <= i < |lines| ==>
          IsProgress(codec, stream, lines[i]) && msgs[i] == Decoded(codec, stream, lines[i]))
    && (forall i, j :: 0 <= i < j < |lines| ==> lines[i].to < lines[j].to)
    && (forall l :: IsProgress(codec, stream, l) ==> l in lines)
  }

  function Shifted(lines: seq<Line>, shift: nat): (r: seq<Line>)
    ensures |r| == |lines| && forall i :: 0 <= i < |r| ==> r[i] == Line(lines[i].from + shift, lines[i].to + shift)
  {
    seq(|lines|, i requires 0 <= i < |lines| => Line(lines[i].from + shift, lines[i].to + shift))
  }

  /** Past the first newline, at n, the lines of a stream are those of what follows. */
  lemma LaterLine(codec: Codec, stream: Bytes, n: nat, l: Line)
    requires n < |stream| && stream[n] == 10
    ensures var later := Line(l.from + n + 1, l.to + n + 1);
            && (IsProgress(codec, stream[n + 1..], l) <==> IsProgress(codec, stream, later))
            && (IsProgress(codec, stream, later) ==>
                  Decoded(codec, stream, later) == Decoded(codec, stream[n + 1..], l))
  {
    var tail, later := stream[n + 1..], Line(l.from + n + 1, l.to + n + 1);
    assert forall i :: 0 <= i < |tail| ==> tail[i] == stream[i + n + 1];
    LaterIsLine(stream, n, l);
    if IsLine(stream, later) {
      assert tail[l.from..l.to] == stream[later.from..later.to];
    }
  }

  lemma LaterIsLine(stream: Bytes, n: nat, l: Line)
    requires n < |stream| && stream[n] == 10
    ensures IsLine(stream[n + 1..], l) <==> IsLine(stream, Line(l.from + n + 1, l.to + n + 1))
  {
    var tail, later := stream[n + 1..], Line(l.from + n + 1, l.to + n + 1);
    if IsLine(tail, l) {
      assert forall i :: later.from <= i < later.to ==> stream[i] == tail[i - n - 1];
    }
    if IsLine(stream, later) {
      assert forall i :: l.from <= i < l.to ==> tail[i] == stream[i + n + 1];
    }
  }

  /** A line is the first one, or lies past the first newline. */
  lemma FirstOrLater(stream: Bytes, n: nat, l: Line)
    requires n < |stream| && stream[n] == 10 && (forall i :: 0 <= i < n ==> stream[i] != 10)
    ensures IsLine(stream, Line(0, n))
    ensures IsLine(stream, l) ==> l == Line(0, n) || l.from >= n + 1
  {
    if IsLine(stream, l) && l.from <= n {
      assert l.from == 0;
      assert l.to == n;
    }
  }

  /** Messages means what Transcribes says. */
  lemma {:induction false} MessagesTranscribe(codec: Codec, stream: Bytes) returns (lines: seq<Line>)
    ensures Transcribes(codec, stream, Messages(codec, stream), lines)
    decreases |stream|
  {
    var n := IndexOf(stream, NEWLINE);
    if n < 0 {
      lines := [];
    } else {
      var later := MessagesTranscribe(codec, stream[n + 1..]);
      NotBefore(stream, n);
      lines := Joined(codec, stream, n, later);
      LinesJoin(codec, stream, n, Messages(codec, stream[n + 1..]), later);
    }
  }

  lemma NotBefore(stream: Bytes, n: nat)
    requires n < |stream| && NEWLINE !in stream[..n]
    ensures forall i :: 0 <= i < n ==> stream[i] != 10
  {
    forall i | 0 <= i < n
      ensures stream[i] != 10
    {
      assert stream[..n][i] == stream[i];
    }
  }

  /** The first line, if it is a progress line, and the lines of what follows. */
  function Joined(codec: Codec, stream: Bytes, n: nat, later: seq<Line>): seq<Line>
    requires n < |stream|
  {
    (if LineMessage(codec, stream[..n]) == [] then [] else [Line(0, n)]) + Shifted(later, n + 1)
  }

  lemma LinesJoin(codec: Codec, stream: Bytes, n: nat, msgs: seq<Message>, later: seq<Line>)
    requires n < |stream| && stream[n] == 10 && (forall i :: 0 <= i < n ==> stream[i] != 10)
    requires Transcribes(codec, stream[n + 1..], msgs, later)
    ensures Transcribes(codec, stream, LineMessage(codec, stream[..n]) + msgs, Joined(codec, stream, n, later))
  {
    var lines := Joined(codec, stream, n, later);
    FirstLineProgress(codec, stream, n);
    forall i | 0 <= i < |lines|
      ensures IsProgress(codec, stream, lines[i])
      ensures (LineMessage(codec, stream[..n]) + msgs)[i] == Decoded(codec, stream, lines[i])
    {
      if i >= |LineMessage(codec, stream[..n])| {
        JoinedAt(codec, stream, n, msgs, later, i);
      }
    }
    forall l | IsProgress(codec, stream, l)
      ensures l in lines
    {
      JoinedHas(codec, stream, n, msgs, later, l);
    }
  }

  lemma JoinedAt(codec: Codec, stream: Bytes, n: nat, msgs: seq<Message>, later: seq<Line>, i: nat)
    requires n < |stream| && stream[n] == 10 && (forall i :: 0 <= i < n ==> stream[i] != 10)
    requires |msgs| == |later| && |LineMessage(codec, stream[..n])| <= i < |Joined(codec, stream, n, later)|
    requires var k := i - |LineMessage(codec, stream[..n])|;
             k < |later| ==>
               IsProgress(codec, stream[n + 1..], later[k]) && msgs[k] == Decoded(codec, stream[n + 1..], later[k])
    ensures |Joined(codec, stream, n, later)| == |LineMessage(codec, stream[..n]) + msgs|
    ensures var lines := Joined(codec, stream, n, later);
            && IsProgress(codec, stream, lines[i])
            && (LineMessage(codec, stream[..n]) + msgs)[i] == Decoded(codec, stream, lines[i])
  {
    FirstLineProgress(codec, stream, n);
    var k := i - |LineMessage(codec, stream[..n])|;
    assert Joined(codec, stream, n, later)[i] == Shifted(later, n + 1)[k];
    LaterLine(codec, stream, n, later[k]);
  }

  lemma JoinedHas(codec: Codec, stream: Bytes, n: nat, msgs: seq<Message>, later: seq<Line>, l: Line)
    requires n < |stream| && stream[n] == 10 && (forall i :: 0 <= i < n ==> stream[i] != 10)
    requires Transcribes(codec, stream[n + 1..], msgs, later) && IsProgress(codec, stream, l)
    ensures l in Joined(codec, stream, n, later)
  {
    FirstOrLater(stream, n, l);
    FirstLineProgress(codec, stream, n);
    if l != Line(0, n) {
      var t := Line(l.from - n - 1, l.to - n - 1);
      LaterLine(codec, stream, n, t);
      var i :| 0 <= i < |later| && later[i] == t;
      assert Shifted(later, n + 1)[i] == l;
    }
  }

  lemma FirstLineProgress(codec: Codec, stream: Bytes, n: nat)
    requires n < |stream| && stream[n] == 10 && (forall i :: 0 <= i < n ==> stream[i] != 10)
    ensures var first := LineMessage(codec, stream[..n]);
            if IsProgress(codec, stream, Line(0, n)) then first == [Decoded(codec, stream, Line(0, n))]
            else first == []
  {
    assert stream[0..n] == stream[..n];
  }

  /** The bytes determine the messages. */
  lemma TranscriptUnique(codec: Codec, stream: Bytes, m: seq<Message>, a: seq<Line>, m': seq<Message>, b: seq<Line>)
    requires Transcribes(codec, stream, m, a) && Transcribes(codec, stream, m', b)
    ensures m == m'
  {
    forall l
      ensures l in a <==> l in b
    {
    }
    SortedAgree(a, b);
  }

  lemma {:induction false} SortedAgree(a: seq<Line>, b: seq<Line>)
    requires forall i, j :: 0 <= i < j < |a| ==> a[i].to < a[j].to
    requires forall i, j :: 0 <= i < j < |b| ==> b[i].to < b[j].to
    requires forall l :: l in a <==> l in b
    ensures a == b
  {
    if a != [] || b != [] {
      var x := if a != [] then a[0] else b[0];
      assert x in a && x in b;
      var n, m := |a| - 1, |b| - 1;
      assert a[n] in b && b[m] in a;
      assert a[n] == b[m];
      forall l
        ensures l in a[..n] <==> l in b[..m]
      {
        assert l in a[..n] <==> l in a && l != a[n];
        assert l in b[..m] <==> l in b && l != b[m];
      }
      SortedAgree(a[..n], b[..m]);
      assert a == a[..n] + [a[n]] && b == b[..m] + [b[m]];
    }
  }

  /** rest is what follows the last newline of the stream, or all of it. */
  ghost predicate IsUnfinished(stream: Bytes, rest: Bytes) {
    && |rest| <= |stream| && rest == stream[|stream| - |rest|..]
    && (forall i :: 0 <= i < |rest| ==> rest[i] != 10)
    && (|rest| == |stream| || stream[|stream| - |rest| - 1] == 10)
  }

  lemma {:induction false} RestIsUnfinished(stream: Bytes)
    ensures IsUnfinished(stream, Rest(stream))
    decreases |stream|
  {
    var n := IndexOf(stream, NEWLINE);
    if n >= 0 {
      RestIsUnfinished(stream[n + 1..]);
      UnfinishedLater(stream, n + 1, Rest(stream[n + 1..]));
    }
  }

  lemma UnfinishedLater(stream: Bytes, k: nat, rest: Bytes)
    requires 0 < k <= |stream| && stream[k - 1] == 10 && IsUnfinished(stream[k..], rest)
    ensures IsUnfinished(stream, rest)
  {
    assert stream[k..][|stream| - k - |rest|..] == stream[|stream| - |rest|..];
  }

  function Flatten(chunks: seq<Bytes>): Bytes {
    if chunks == [] then [] else Flatten(chunks[..|chunks| - 1]) + chunks[|chunks| - 1]
  }

  class LineWriter {
    const hub: RunBroadcaster
    const codec: Codec
    var buf: Bytes

    constructor (hub: RunBroadcaster, codec: Codec)
      ensures this.hub == hub && this.codec == codec && buf == []
    {
      this.hub, this.codec, buf := hub, codec, [];
    }

    /** Publishes the message of one line, if it has one. */
    method PublishLine(line: Bytes)
      requires hub.Valid()
      modifies hub`head, hub`count, hub`history, hub`nsubs, hub`chans, hub.buf, hub.slots
      ensures hub.Valid() && hub.history == old(hub.history) + LineMessage(codec, line)
    {
      var text := codec.trim(line);
      if text == [] {
        return;
      }
      var msg := codec.decode(text);
      if msg.None? {
        return;
      }
      if msg.value.kind == "progress" {
        hub.Publish(msg.value);
      }
    }

    /** Takes one complete line off the buffer, if there is one. */
    method TakeLine() returns (took: bool)
      requires hub.Valid()
      modifies this`buf, hub`head, hub`count, hub`history, hub`nsubs, hub`chans, hub.buf, hub.slots
      ensures hub.Valid()
      ensures hub.history + Messages(codec, buf) == old(hub.history) + Messages(codec, old(buf))
      ensures Rest(buf) == Rest(old(buf))
      ensures if took then |buf| < |old(buf)| else buf == old(buf) && Messages(codec, buf) == [] && Rest(buf) == buf
    {
      var idx := IndexOf(buf, NEWLINE);
      if idx < 0 {
        NoLine(codec, buf);
        return false;
      }
      ghost var published := hub.history;
      var line, tail := buf[..idx], buf[idx + 1..];
      Unfold(codec, buf, published, line, tail);
      buf := tail;
      PublishLine(line);
      return true;
    }

    /** Publishes the messages of all lines completed by p and keeps the rest. */
    method Write(p: Bytes) returns (n: nat)
      requires hub.Valid()
      modifies this`buf, hub`head, hub`count, hub`history, hub`nsubs, hub`chans, hub.buf, hub.slots
      ensures hub.Valid() && n == |p|
      ensures hub.history == old(hub.history) + Messages(codec, old(buf) + p)
      ensures old(hub.history) <= hub.history
      ensures exists lines :: Transcribes(codec, old(buf) + p, hub.history[|old(hub.history)|..], lines)
      ensures buf == Rest(old(buf) + p) && IsUnfinished(old(buf) + p, buf)
    {
      ghost var lines := MessagesTranscribe(codec, buf + p);
      RestIsUnfinished(buf + p);
      buf := buf + p;
      ghost var total, rest := Messages(codec, buf), Rest(buf);
      var took := true;
      while took
        invariant hub.Valid()
        invariant hub.history + Messages(codec, buf) == old(hub.history) + total && Rest(buf) == rest
        invariant !took ==> Messages(codec, buf) == [] && Rest(buf) == buf
        decreases took, |buf|
      {
        took := TakeLine();
      }
      assert hub.history == old(hub.history) + total;
      assert hub.history[|old(hub.history)|..] == total;
      return |p|;
    }
  }

  /** Publishing the first line's message and dropping the line loses nothing. */
  lemma Unfold(codec: Codec, buf: Bytes, published: seq<Message>, line: Bytes, tail: Bytes)
    requires IndexOf(buf, NEWLINE) >= 0
    requires line == buf[..IndexOf(buf, NEWLINE)] && tail == buf[IndexOf(buf, NEWLINE) + 1..]
    ensures (published + LineMessage(codec, line)) + Messages(codec, tail) == published + Messages(codec, buf)
    ensures Rest(tail) == Rest(buf)
  {
  }

  lemma NoLine(codec: Codec, buf: Bytes)
    requires IndexOf(buf, NEWLINE) < 0
    ensures Messages(codec, buf) == [] && Rest(buf) == buf
  {
  }

  /** The state of a LineWriter that has been fed the given chunks. */
  ghost function Fed(codec: Codec, chunks: seq<Bytes>): (r: (seq<Message>, Bytes))
  {
    if chunks == [] then ([], [])
    else
      var n := |chunks| - 1;
      var (msgs, buf) := Fed(codec, chunks[..n]);
      (msgs + Messages(codec, buf + chunks[n]), Rest(buf + chunks[n]))
  }

  /** However the stream is cut into writes, the messages published and the
      unfinished line depend on the concatenated bytes alone. */
  lemma {:induction false} ChunkingIrrelevant(codec: Codec, chunks: seq<Bytes>)
    ensures Fed(codec, chunks) == (Messages(codec, Flatten(chunks)), Rest(Flatten(chunks)))
    ensures exists lines :: Transcribes(codec, Flatten(chunks), Fed(codec, chunks).0, lines)
  {
    if chunks != [] {
      var n := |chunks| - 1;
      ChunkingIrrelevant(codec, chunks[..n]);
      MessagesSplit(codec, Flatten(chunks[..n]), chunks[n]);
      RestSplit(Flatten(chunks[..n]), chunks[n]);
    }
    var lines := MessagesTranscribe(codec, Flatten(chunks));
  }
}
