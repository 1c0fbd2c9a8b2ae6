/** The LiminalDB outbox: a bounded FIFO that is replayed over an unreliable link
    (src/store/liminal.rs). */
module Outbox {

  const MAX_PENDING := 1024

  // ---------------------------------------------------------------- one call

  /** How a WebSocket write ends. Success only means that the local transport has taken
      the frame. A failed write costs the connection: its frame may or may not have
      `entered` the transport, and of all that was still in transit the first `lands`
      frames arrive and the others never do. */
  datatype Write = Taken | Failed(entered: bool, lands: nat)

  /** What the link does during one call: whether a connection attempt succeeds, and
      how each write ends, in order; writes beyond the list fail. */
  datatype Link = Link(connects: bool, writes: seq<Write>)
  {
    function At(k: nat): Write { if k < |writes| then writes[k] else Failed(false, 0) }
  }

  /** A connection: every frame that entered it, how many of its writes were reported
      as successful, and how many of its frames the peer has got. */
  datatype Conn = Conn(frames: seq<string>, oks: nat, got: nat)
  {
    /** After the peer gets `n` more frames, if so many are in transit. */
    function Delivers(n: nat): Conn {
      this.(got := if got + n <= |frames| then got + n else if got <= |frames| then |frames| else got)
    }
  }

  /** The store's queue and socket; then histories that no step reads: what was accepted,
      what was reported as sent, and every connection. The last one is open if `connected`;
      on the others nothing is in transit any more. */
  datatype Box = Box(
    pending: seq<string>, connected: bool, accepted: seq<string>, sent: seq<string>, conns: seq<Conn>)

  function Opened(connects: bool): Box {
    if connects then Connects(Box([], false, [], [], [])) else Box([], false, [], [], [])
  }

  function Connects(b: Box): Box {
    b.(connected := true, conns := b.conns + [Conn([], 0, 0)])
  }

  /** The open connection with a change. */
  function WithLast(b: Box, c: Conn): seq<Conn>
    requires b.conns != []
  {
    b.conns[..|b.conns| - 1] + [c]
  }

  function Last(b: Box): Conn
    requires b.conns != []
  {
    b.conns[|b.conns| - 1]
  }

  function Wrote(b: Box): Box
    requires b.pending != [] && b.conns != []
  {
    var c := Last(b);
    b.(pending := b.pending[1..], sent := b.sent + [b.pending[0]],
       conns := WithLast(b, c.(frames := c.frames + [b.pending[0]], oks := c.oks + 1)))
  }

  /** What is left of the open connection when a write fails on it. */
  function Torn(c: Conn, frame: string, w: Write): Conn
    requires w.Failed?
  {
    c.(frames := c.frames + if w.entered then [frame] else []).Delivers(w.lands)
  }

  function Broke(b: Box, w: Write): Box
    requires b.pending != [] && b.conns != [] && w.Failed?
  {
    b.(connected := false, conns := WithLast(b, Torn(Last(b), b.pending[0], w)))
  }

  /** Between calls, frames in transit reach the peer. */
  function Arrived(b: Box, n: nat): Box {
    if b.connected && b.conns != [] then b.(conns := WithLast(b, Last(b).Delivers(n))) else b
  }

  /** Write the queue from the front until it is empty or a write fails; `k` writes came before. */
  function Flush(b: Box, link: Link, k: nat): Box
    requires b.conns != []
    decreases |b.pending|
  {
    if b.pending == [] then b
    else match link.At(k)
      case Taken => Flush(Wrote(b), link, k + 1)
      case Failed(_, _) => Broke(b, link.At(k))
  }

  predicate Accepts(b: Box) { |b.pending| < MAX_PENDING }

  function Queued(b: Box, text: string): Box {
    b.(pending := b.pending + [text], accepted := b.accepted + [text])
  }

  /** The box after a Store call with payload `text`. */
  function Called(b: Box, text: string, link: Link): Box
    requires b.connected ==> b.conns != []
  {
    if !Accepts(b) then b
    else if b.connected then Flush(Queued(b, text), link, 0)
    else if link.connects then Flush(Connects(Queued(b, text)), link, 0)
    else Queued(b, text)
  }

  // ---------------------------------------------------------------- the invariant

  /** How many writes were reported as successful on the first `i` connections, that is,
      the place in `accepted` of the first frame of connection `i`. */
  function First(conns: seq<Conn>, i: nat): nat
    requires i <= |conns|
  {
    if i == 0 then 0 else First(conns, i - 1) + conns[i - 1].oks
  }

  /** The connection carried `texts` from place `p` on, without a gap; only the last of its
      frames, on a connection that was lost, was not reported as sent. */
  predicate Carries(c: Conn, p: nat, texts: seq<string>) {
    && c.oks <= |c.frames| <= c.oks + 1 && c.got <= |c.frames|
    && p + |c.frames| <= |texts| && c.frames == texts[p..p + |c.frames|]
  }

  predicate ConnInv(b: Box, i: nat)
    requires i < |b.conns|
  {
    Carries(b.conns[i], First(b.conns, i), b.accepted)
  }

  predicate Inv(b: Box) {
    && |b.pending| <= MAX_PENDING
    && b.accepted == b.sent + b.pending
    && (b.connected ==> b.conns != [] && |Last(b).frames| == Last(b).oks)
    && First(b.conns, |b.conns|) == |b.sent|
    && (forall i :: 0 <= i < |b.conns| ==> ConnInv(b, i))
  }

  /** Between calls, an open connection means an empty queue. */
  predicate Settled(b: Box) {
    Inv(b) && (b.pending == [] || !b.connected)
  }

  lemma {:induction false} FirstOfPrefix(conns: seq<Conn>, more: seq<Conn>, i: nat)
    requires i <= |conns| <= |more| && conns == more[..|conns|]
    ensures First(conns, i) == First(more, i)
  {
    if i > 0 {
      FirstOfPrefix(conns, more, i - 1);
      assert conns[i - 1] == more[i - 1];
    }
  }

  lemma {:induction false} FirstGrows(conns: seq<Conn>, i: nat, j: nat)
    requires i <= j <= |conns|
    ensures First(conns, i) <= First(conns, j)
    ensures i < j ==> First(conns, i) + conns[i].oks <= First(conns, j)
  {
    if i < j { FirstGrows(conns, i, j - 1); }
  }

  /** Replace the open connection, as long as it still carries what was accepted. */
  lemma LastKeeps(b: Box, v: Box, c: Conn)
    requires Inv(b) && b.conns != [] && v.conns == WithLast(b, c) && b.accepted <= v.accepted
    requires Carries(c, First(b.conns, |b.conns| - 1), v.accepted)
    ensures forall i :: 0 <= i < |v.conns| ==> ConnInv(v, i)
    ensures First(v.conns, |v.conns|) == First(b.conns, |b.conns| - 1) + c.oks
  {
    var n := |b.conns| - 1;
    forall i | 0 <= i <= n ensures ConnInv(v, i) && First(v.conns, i) == First(b.conns, i) {
      FirstOfPrefix(b.conns[..n], b.conns, i);
      FirstOfPrefix(b.conns[..n], v.conns, i);
      if i < n {
        assert ConnInv(b, i);
        assert v.conns[i] == b.conns[i];
      }
    }
    assert First(v.conns, n) == First(b.conns, n);
  }

  lemma OneMoreIsCarried(c: Conn, p: nat, texts: seq<string>, w: Write)
    requires Carries(c, p, texts) && |c.frames| == c.oks && p + c.oks < |texts|
    ensures Carries(c.(frames := c.frames + [texts[p + c.oks]], oks := c.oks + 1), p, texts)
    ensures w.Failed? ==> Carries(Torn(c, texts[p + c.oks], w), p, texts)
  {
    assert texts[p..p + c.oks] + [texts[p + c.oks]] == texts[p..p + c.oks + 1];
    assert c.frames + [] == c.frames;
  }

  /** The front of the queue is the next payload for the open connection. */
  lemma FrontIsNext(b: Box)
    requires Inv(b) && b.connected && b.pending != []
    ensures var p := First(b.conns, |b.conns| - 1);
            && Carries(Last(b), p, b.accepted) && p + Last(b).oks == |b.sent| < |b.accepted|
            && b.pending[0] == b.accepted[|b.sent|]
  {
    assert ConnInv(b, |b.conns| - 1);
  }

  lemma WroteKeeps(b: Box)
    requires Inv(b) && b.connected && b.pending != []
    ensures Inv(Wrote(b)) && Wrote(b).connected
  {
    FrontIsNext(b);
    OneMoreIsCarried(Last(b), First(b.conns, |b.conns| - 1), b.accepted, Taken);
    LastKeeps(b, Wrote(b), Last(Wrote(b)));
  }

  lemma BrokeKeeps(b: Box, w: Write)
    requires Inv(b) && b.connected && b.pending != [] && w.Failed?
    ensures Inv(Broke(b, w))
  {
    FrontIsNext(b);
    OneMoreIsCarried(Last(b), First(b.conns, |b.conns| - 1), b.accepted, w);
    LastKeeps(b, Broke(b, w), Torn(Last(b), b.pending[0], w));
  }

  lemma ArrivedKeeps(b: Box, n: nat)
    requires Inv(b)
    ensures Inv(Arrived(b, n))
  {
    if b.connected {
      assert ConnInv(b, |b.conns| - 1);
      LastKeeps(b, Arrived(b, n), Last(b).Delivers(n));
    }
  }

  lemma ConnectsKeeps(b: Box)
    requires Inv(b)
    ensures Inv(Connects(b))
  {
    var v := Connects(b);
    forall i | 0 <= i < |v.conns| ensures ConnInv(v, i) {
      FirstOfPrefix(b.conns, v.conns, i);
      if i < |b.conns| { assert ConnInv(b, i); }
    }
    FirstOfPrefix(b.conns, v.conns, |b.conns|);
  }

  lemma QueuedKeeps(b: Box, text: string)
    requires Inv(b) && Accepts(b)
    ensures Inv(Queued(b, text))
  {
    forall i | 0 <= i < |b.conns| ensures ConnInv(Queued(b, text), i) {
      assert ConnInv(b, i);
    }
  }

  lemma {:induction false} FlushKeeps(b: Box, link: Link, k: nat)
    requires Inv(b) && b.connected
    ensures Inv(Flush(b, link, k)) && Flush(b, link, k).accepted == b.accepted
    ensures Flush(b, link, k).pending == [] || !Flush(b, link, k).connected
    decreases |b.pending|
  {
    if b.pending != [] {
      match link.At(k)
      case Taken =>
        WroteKeeps(b);
        FlushKeeps(Wrote(b), link, k + 1);
      case Failed(_, _) => BrokeKeeps(b, link.At(k));
    }
  }

  /** What one call does, whatever the link does. */
  lemma CallIsSafe(b: Box, text: string, link: Link)
    requires Settled(b)
    ensures var after := Called(b, text, link);
            Settled(after) && (if Accepts(b) then after.accepted == b.accepted + [text] else after == b)
  {
    if Accepts(b) {
      QueuedKeeps(b, text);
      ConnectsKeeps(Queued(b, text));
      if b.connected { FlushKeeps(Queued(b, text), link, 0); }
      else { FlushKeeps(Connects(Queued(b, text)), link, 0); }
    }
  }

  predicate Works(link: Link, n: nat) {
    link.connects && n <= |link.writes| && forall k :: 0 <= k < n ==> link.writes[k].Taken?
  }

  lemma {:induction false} FlushDrains(b: Box, link: Link, k: nat)
    requires b.conns != [] && Works(link, k + |b.pending|)
    ensures Flush(b, link, k).pending == [] && Flush(b, link, k).sent == b.sent + b.pending
    ensures Flush(b, link, k).connected == b.connected
    decreases |b.pending|
  {
    if b.pending != [] {
      FlushDrains(Wrote(b), link, k + 1);
      assert b.sent + [b.pending[0]] + b.pending[1..] == b.sent + b.pending;
    }
  }

  /** One call over a link that works empties the queue, unless it was full. */
  lemma WorkingLinkDrains(b: Box, text: string, link: Link)
    requires (b.connected ==> b.conns != []) && Accepts(b) && Works(link, |b.pending| + 1)
    ensures var after := Called(b, text, link);
            after.pending == [] && after.connected && after.sent == b.sent + b.pending + [text]
  {
    FlushDrains(if b.connected then Queued(b, text) else Connects(Queued(b, text)), link, 0);
    assert b.sent + (b.pending + [text]) == b.sent + b.pending + [text];
  }

  // ---------------------------------------------------------------- every run

  datatype Step = Call(text: string, link: Link) | Arrive(n: nat)

  function Next(b: Box, step: Step): Box
    requires b.connected ==> b.conns != []
  {
    match step
    case Call(text, link) => Called(b, text, link)
    case Arrive(n) => Arrived(b, n)
  }

  lemma NextKeeps(b: Box, step: Step)
    requires Settled(b)
    ensures Settled(Next(b, step))
  {
    match step
    case Call(text, link) => CallIsSafe(b, text, link);
    case Arrive(n) => ArrivedKeeps(b, n);
  }

  /** Any number of Store calls, with frames arriving in between. */
  function Run(b: Box, steps: seq<Step>): (after: Box)
    requires Settled(b)
    ensures Settled(after)
    decreases |steps|
  {
    if steps == [] then b
    else
      NextKeeps(b, steps[0]);
      Run(Next(b, steps[0]), steps[1..])
  }

  lemma OpenedIsSettled(connects: bool)
    ensures Settled(Opened(connects))
  {
    ConnectsKeeps(Box([], false, [], [], []));
  }

  function Offered(steps: seq<Step>): seq<string>
    decreases |steps|
  {
    if steps == [] then []
    else (if steps[0].Call? then [steps[0].text] else []) + Offered(steps[1..])
  }

  /** A full queue stays full for ever: its branch never flushes, even when the link works again. */
  lemma {:induction false} FullIsForever(b: Box, steps: seq<Step>)
    requires Settled(b) && !Accepts(b)
    ensures Run(b, steps) == b
    decreases |steps|
  {
    if steps != [] { FullIsForever(b, steps[1..]); }
  }

  /** A call over a link that works empties the queue iff it had room. */
  lemma CallDrainsExactly(b: Box, text: string, link: Link)
    requires Settled(b) && Works(link, |b.pending| + 1)
    ensures Called(b, text, link).pending == [] <==> |b.pending| < 1024
  {
    if Accepts(b) { WorkingLinkDrains(b, text, link); }
  }

  /** Nothing connects, and no write succeeds. */
  const DEAD := Link(false, [])

  function CallsWhileDead(texts: seq<string>): (steps: seq<Step>)
    ensures |steps| == |texts|
  {
    if texts == [] then [] else [Call(texts[0], DEAD)] + CallsWhileDead(texts[1..])
  }

  lemma {:induction false} DeadLinkFills(b: Box, texts: seq<string>)
    requires Settled(b) && !b.connected && |b.pending| + |texts| <= MAX_PENDING
    ensures var after := Run(b, CallsWhileDead(texts)); after.pending == b.pending + texts && !after.connected
    decreases |texts|
  {
    if texts == [] {
      assert b.pending + texts == b.pending;
    } else {
      var steps := CallsWhileDead(texts);
      NextKeeps(b, steps[0]);
      assert Next(b, steps[0]) == Queued(b, texts[0]) && steps[1..] == CallsWhileDead(texts[1..]);
      DeadLinkFills(Queued(b, texts[0]), texts[1..]);
      assert b.pending + [texts[0]] + texts[1..] == b.pending + texts;
    }
  }

  /** A store that opens while the link is down fills up after 1024 calls, and after that
      no call ever sends, queues or drops anything, whatever the link does. */
  lemma FullIsReachable(texts: seq<string>, more: seq<Step>)
    requires |texts| == 1024
    ensures Settled(Opened(false))
    ensures var full := Run(Opened(false), CallsWhileDead(texts));
            full.pending == texts && !Accepts(full) && Run(full, more) == full
  {
    OpenedIsSettled(false);
    DeadLinkFills(Opened(false), texts);
    FullIsForever(Run(Opened(false), CallsWhileDead(texts)), more);
  }

  lemma NextAccepts(b: Box, step: Step)
    requires Settled(b)
    ensures Next(b, step).accepted == b.accepted + if Accepts(b) then Offered([step]) else []
  {
    assert Offered([step]) == if step.Call? then [step.text] else [];
    if step.Call? { CallIsSafe(b, step.text, step.link); }
  }

  lemma PrefixStep(a: seq<string>, x: seq<string>, o: seq<string>, r: seq<string>)
    requires a + x <= r <= (a + x) + o
    ensures a <= r <= a + (x + o) && (a + x) + o == a + (x + o)
  {
  }

  /** Each call's payload is accepted until the queue first fills, and none after that. */
  lemma {:induction false} AcceptedIsPrefix(b: Box, steps: seq<Step>)
    requires Settled(b)
    ensures b.accepted <= Run(b, steps).accepted <= b.accepted + Offered(steps)
    ensures Accepts(Run(b, steps)) ==> Run(b, steps).accepted == b.accepted + Offered(steps)
    decreases |steps|
  {
    if steps != [] {
      if !Accepts(b) {
        FullIsForever(b, steps);
      } else {
        NextKeeps(b, steps[0]);
        NextAccepts(b, steps[0]);
        AcceptedIsPrefix(Next(b, steps[0]), steps[1..]);
        assert Offered(steps) == Offered([steps[0]]) + Offered(steps[1..]);
        PrefixStep(b.accepted, Offered([steps[0]]), Offered(steps[1..]), Run(b, steps).accepted);
      }
    }
  }

  /** Over any run: what was accepted is what was sent followed by what is pending, and
      is what was offered until the queue first filled. */
  lemma NothingAcceptedIsDropped(connects: bool, steps: seq<Step>)
    ensures Settled(Opened(connects))
    ensures var b := Run(Opened(connects), steps);
            && |b.pending| <= MAX_PENDING && b.accepted == b.sent + b.pending
            && b.accepted <= Offered(steps) && (Accepts(b) ==> b.accepted == Offered(steps))
  {
    OpenedIsSettled(connects);
    AcceptedIsPrefix(Opened(connects), steps);
    assert [] + Offered(steps) == Offered(steps);
  }

  // ---------------------------------------------------------------- what the peer sees

  predicate Open(b: Box, i: nat) { b.connected && i + 1 == |b.conns| }

  /** The peer got payload `p` (a place in `accepted`) on connection `i`. */
  predicate SeenOn(b: Box, i: nat, p: nat)
    requires i < |b.conns|
  {
    First(b.conns, i) <= p < First(b.conns, i) + b.conns[i].got
  }

  /** Payload `p` was reported as sent on connection `i` and was in transit when the socket was lost. */
  predicate LostOn(b: Box, i: nat, p: nat)
    requires i < |b.conns|
  {
    !Open(b, i) && First(b.conns, i) + b.conns[i].got <= p < First(b.conns, i) + b.conns[i].oks
  }

  /** The write of payload `p` that cost connection `i` reached the peer all the same. */
  predicate StrayOn(b: Box, i: nat, p: nat)
    requires i < |b.conns|
  {
    !Open(b, i) && StrayAt(First(b.conns, i), b.conns[i], p)
  }

  /** The peer got one frame more than was reported as sent, and that one is payload `p`. */
  predicate StrayAt(first: nat, c: Conn, p: nat) { c.got > c.oks && p == first + c.oks }

  predicate Seen(b: Box, p: nat) { exists i :: 0 <= i < |b.conns| && SeenOn(b, i, p) }
  predicate Lost(b: Box, p: nat) { exists i :: 0 <= i < |b.conns| && LostOn(b, i, p) }
  predicate Stray(b: Box, p: nat) { exists i :: 0 <= i < |b.conns| && StrayOn(b, i, p) }

  /** Payload `p` is neither pending nor in transit, and the peer has not got it. */
  predicate Missed(b: Box, p: nat) {
    p < |b.sent| && !Seen(b, p) && (b.connected && b.conns != [] ==> p < First(b.conns, |b.conns| - 1) + Last(b).got)
  }

  /** The connection on which payload `p` was reported as sent. */
  lemma {:induction false} Carrier(conns: seq<Conn>, n: nat, p: nat) returns (i: nat)
    requires n <= |conns| && p < First(conns, n)
    ensures i < n && First(conns, i) <= p < First(conns, i) + conns[i].oks
  {
    if p < First(conns, n - 1) { i := Carrier(conns, n - 1, p); } else { i := n - 1; }
  }

  /** What the peer got on connection `i` is a stretch of `texts`, from the connection's first place on. */
  predicate Shows(b: Box, i: nat, texts: seq<string>)
    requires i < |b.conns|
  {
    var first, c := First(b.conns, i), b.conns[i];
    c.got <= |c.frames| && first + c.got <= |texts| && c.frames[..c.got] == texts[first..first + c.got]
  }

  lemma ShowsAccepted(b: Box, i: nat)
    requires Inv(b) && i < |b.conns|
    ensures Shows(b, i, b.accepted)
  {
    assert ConnInv(b, i);
  }

  lemma ShowsMore(b: Box, i: nat, texts: seq<string>, more: seq<string>)
    requires i < |b.conns| && Shows(b, i, texts) && texts <= more
    ensures Shows(b, i, more)
  {
  }

  /** Over any run of a new store: on each connection the peer sees the offered payloads in
      order, without a gap, from the connection's first one on. */
  lemma ConnectionShowsRun(connects: bool, steps: seq<Step>, i: nat)
    ensures Settled(Opened(connects))
    ensures var b := Run(Opened(connects), steps); i < |b.conns| ==> Shows(b, i, Offered(steps))
  {
    NothingAcceptedIsDropped(connects, steps);
    var b := Run(Opened(connects), steps);
    if i < |b.conns| {
      ShowsAccepted(b, i);
      ShowsMore(b, i, b.accepted, Offered(steps));
    }
  }

  lemma PlacesGrow(b: Box, i: nat, x: nat, j: nat, y: nat)
    requires Inv(b) && i < j < |b.conns| && x < b.conns[i].got && y < b.conns[j].got
    ensures First(b.conns, i) + x <= First(b.conns, j) + y
    ensures First(b.conns, i) + x == First(b.conns, j) + y ==> StrayOn(b, i, First(b.conns, i) + x)
  {
    assert ConnInv(b, i);
    FirstGrows(b.conns, i, j);
  }

  /** Over any run of a new store: from one connection to a later one the peer never goes back,
      and sees a payload again only if the write that cost the earlier connection reached it. */
  lemma OrderNeverBreaks(connects: bool, steps: seq<Step>, i: nat, x: nat, j: nat, y: nat)
    ensures Settled(Opened(connects))
    ensures var b := Run(Opened(connects), steps);
            i < j < |b.conns| && x < b.conns[i].got && y < b.conns[j].got ==>
              && First(b.conns, i) + x <= First(b.conns, j) + y
              && (First(b.conns, i) + x == First(b.conns, j) + y ==> StrayOn(b, i, First(b.conns, i) + x))
  {
    OpenedIsSettled(connects);
    var b := Run(Opened(connects), steps);
    if i < j < |b.conns| && x < b.conns[i].got && y < b.conns[j].got { PlacesGrow(b, i, x, j, y); }
  }

  lemma LostIsMissed(b: Box, p: nat)
    requires Inv(b) && Lost(b, p) && !Stray(b, p)
    ensures Missed(b, p)
  {
    var i :| 0 <= i < |b.conns| && LostOn(b, i, p);
    FirstGrows(b.conns, i, |b.conns|);
    FirstGrows(b.conns, i, |b.conns| - 1);
    forall j | 0 <= j < |b.conns| ensures !SeenOn(b, j, p) {
      assert ConnInv(b, j);
      if j < i { FirstGrows(b.conns, j, i); } else if i < j { FirstGrows(b.conns, i, j); }
      assert !StrayOn(b, j, p);
    }
  }

  lemma MissedIsLost(b: Box, p: nat)
    requires Inv(b) && Missed(b, p)
    ensures Lost(b, p) && !Stray(b, p)
  {
    var i := Carrier(b.conns, |b.conns|, p);
    assert !SeenOn(b, i, p);
    assert LostOn(b, i, p);
    if j :| 0 <= j < |b.conns| && StrayOn(b, j, p) {
      assert SeenOn(b, j, p);
    }
  }

  /** Exactly when the peer misses a payload that has left the queue: it was reported as
      sent and still in transit when its socket was lost, and no failed write of it had
      got through before. */
  lemma MissedExactly(b: Box, p: nat)
    requires Inv(b)
    ensures Missed(b, p) <==> Lost(b, p) && !Stray(b, p)
  {
    if Missed(b, p) { MissedIsLost(b, p); }
    if Lost(b, p) && !Stray(b, p) { LostIsMissed(b, p); }
  }

  /** The same over every run of a new store. */
  lemma PeerMissesExactly(connects: bool, steps: seq<Step>, p: nat)
    ensures Settled(Opened(connects))
    ensures var b := Run(Opened(connects), steps); Missed(b, p) <==> Lost(b, p) && !Stray(b, p)
  {
    OpenedIsSettled(connects);
    MissedExactly(Run(Opened(connects), steps), p);
  }

  // ---------------------------------------------------------------- for ever

  /** Connection `i` keeps its place and its successes; if it was over, it is as it was. */
  predicate Stays(b: Box, v: Box, i: nat)
    requires i < |b.conns| && i < |v.conns|
  {
    && First(v.conns, i) == First(b.conns, i) && b.conns[i].oks <= v.conns[i].oks
    && (!Open(b, i) ==> v.conns[i] == b.conns[i] && !Open(v, i))
  }

  /** Connection `i` starts after all that was sent before. */
  predicate StartsAfter(conns: seq<Conn>, i: nat, sent: nat)
    requires i < |conns|
  {
    sent <= First(conns, i)
  }

  /** `v` comes later than `b`. */
  predicate Later(b: Box, v: Box) {
    && |b.sent| <= |v.sent| && |b.conns| <= |v.conns|
    && (forall i :: 0 <= i < |b.conns| ==> Stays(b, v, i))
    && (forall i :: |b.conns| <= i < |v.conns| ==> StartsAfter(v.conns, i, |b.sent|))
  }

  lemma LaterTrans(b: Box, u: Box, v: Box)
    requires Later(b, u) && Later(u, v)
    ensures Later(b, v)
  {
    forall i | 0 <= i < |b.conns| ensures Stays(b, v, i) {
      assert Stays(b, u, i) && Stays(u, v, i);
    }
    forall i | |b.conns| <= i < |v.conns| ensures StartsAfter(v.conns, i, |b.sent|) {
      if i < |u.conns| { assert StartsAfter(u.conns, i, |b.sent|) && Stays(u, v, i); }
      else { assert StartsAfter(v.conns, i, |u.sent|); }
    }
  }

  lemma LastIsLater(b: Box, v: Box, c: Conn)
    requires b.connected && b.conns != [] && v.conns == WithLast(b, c)
    requires Last(b).oks <= c.oks && |b.sent| <= |v.sent|
    ensures Later(b, v)
  {
    var n := |b.conns| - 1;
    forall i | 0 <= i <= n ensures Stays(b, v, i) {
      FirstOfPrefix(b.conns[..n], b.conns, i);
      FirstOfPrefix(b.conns[..n], v.conns, i);
    }
  }

  lemma FirstWithOneMore(conns: seq<Conn>, c: Conn, i: nat)
    requires i <= |conns|
    ensures First(conns + [c], i) == First(conns, i)
  {
    FirstOfPrefix(conns, conns + [c], i);
  }

  lemma ConnectsIsLater(b: Box)
    requires First(b.conns, |b.conns|) == |b.sent| && !b.connected
    ensures Later(b, Connects(b))
  {
    var v, n := Connects(b), |b.conns|;
    forall i | 0 <= i < n ensures Stays(b, v, i) {
      FirstWithOneMore(b.conns, Conn([], 0, 0), i);
    }
    FirstWithOneMore(b.conns, Conn([], 0, 0), n);
    assert StartsAfter(v.conns, n, |b.sent|);
  }

  lemma {:induction false} FlushIsLater(b: Box, link: Link, k: nat)
    requires Inv(b) && b.connected
    ensures Later(b, Flush(b, link, k))
    decreases |b.pending|
  {
    if b.pending == [] {
      LastIsLater(b, b, Last(b));
    } else {
      match link.At(k)
      case Taken =>
        WroteKeeps(b);
        LastIsLater(b, Wrote(b), Last(Wrote(b)));
        FlushIsLater(Wrote(b), link, k + 1);
        LaterTrans(b, Wrote(b), Flush(Wrote(b), link, k + 1));
      case Failed(_, _) =>
        LastIsLater(b, Broke(b, link.At(k)), Torn(Last(b), b.pending[0], link.At(k)));
    }
  }

  lemma NextIsLater(b: Box, step: Step)
    requires Settled(b)
    ensures Later(b, Next(b, step))
  {
    match step
    case Arrive(n) =>
      if b.connected { LastIsLater(b, Arrived(b, n), Last(b).Delivers(n)); }
    case Call(text, link) =>
      if Accepts(b) {
        var q := Queued(b, text);
        QueuedKeeps(b, text);
        if b.connected {
          FlushIsLater(q, link, 0);
          LaterTrans(b, q, Flush(q, link, 0));
        } else if link.connects {
          ConnectsKeeps(q);
          ConnectsIsLater(q);
          FlushIsLater(Connects(q), link, 0);
          LaterTrans(q, Connects(q), Flush(Connects(q), link, 0));
          LaterTrans(b, q, Called(b, text, link));
        }
      }
  }

  /** A frame that stands after all that was sent before is none of it. */
  lemma BeyondIsNotStray(first: nat, c: Conn, sent: nat, p: nat)
    requires p < sent <= first + c.oks
    ensures !StrayAt(first, c, p)
  {
  }

  lemma FirstAfterLast(conns: seq<Conn>)
    requires conns != []
    ensures First(conns, |conns|) == First(conns, |conns| - 1) + conns[|conns| - 1].oks
  {
  }

  /** What was open at place `first` when `sent` frames had been sent. */
  lemma OpenIsNotStray(first: nat, before: Conn, after: Conn, sent: nat, p: nat)
    requires first + before.oks == sent && before.oks <= after.oks && p < sent
    ensures !StrayAt(first, after, p)
  {
  }

  /** A connection that is new or still open carries no stray of what was already sent. */
  lemma NotStrayLater(b: Box, v: Box, p: nat, j: nat)
    requires First(b.conns, |b.conns|) == |b.sent| && Later(b, v) && p < |b.sent| && j < |v.conns|
    requires j < |b.conns| ==> !StrayOn(b, j, p)
    ensures !StrayOn(v, j, p)
  {
    if |b.conns| <= j {
      assert StartsAfter(v.conns, j, |b.sent|);
      BeyondIsNotStray(First(v.conns, j), v.conns[j], |b.sent|, p);
    } else {
      assert Stays(b, v, j);
      if Open(b, j) {
        FirstAfterLast(b.conns);
        OpenIsNotStray(First(v.conns, j), b.conns[j], v.conns[j], |b.sent|, p);
      }
    }
  }

  lemma LostStays(b: Box, v: Box, p: nat, i: nat)
    requires Later(b, v) && i < |b.conns| && LostOn(b, i, p)
    ensures LostOn(v, i, p)
  {
    assert Stays(b, v, i);
  }

  lemma MissedStays(b: Box, v: Box, p: nat)
    requires Inv(b) && Inv(v) && Later(b, v) && Missed(b, p)
    ensures Missed(v, p)
  {
    MissedIsLost(b, p);
    var i :| 0 <= i < |b.conns| && LostOn(b, i, p);
    LostStays(b, v, p, i);
    forall j | 0 <= j < |v.conns| ensures !StrayOn(v, j, p) {
      assert j < |b.conns| ==> !StrayOn(b, j, p);
      NotStrayLater(b, v, p, j);
    }
    LostIsMissed(v, p);
  }

  /** What the peer has missed it never gets: nothing is sent again once it was reported as sent. */
  lemma {:induction false} MissedForEver(b: Box, steps: seq<Step>, p: nat)
    requires Settled(b) && Missed(b, p)
    ensures Missed(Run(b, steps), p)
    decreases |steps|
  {
    if steps != [] {
      NextKeeps(b, steps[0]);
      NextIsLater(b, steps[0]);
      MissedStays(b, Next(b, steps[0]), p);
      MissedForEver(Next(b, steps[0]), steps[1..], p);
    }
  }

  const UP := Link(true, [Taken, Taken])
  const DOWN := Link(true, [])

  const SENT_A := Box([], true, ["A"], ["A"], [Conn(["A"], 1, 0)])
  const BROKEN := Box(["B"], false, ["A", "B"], ["A"], [Conn(["A"], 1, 0)])
  const AGAIN := Box([], true, ["A", "B", "C"], ["A", "B", "C"], [Conn(["A"], 1, 0), Conn(["B", "C"], 2, 0)])
  const ARRIVED := Box([], true, ["A", "B", "C"], ["A", "B", "C"], [Conn(["A"], 1, 0), Conn(["B", "C"], 2, 2)])

  const QUEUED_A := Box(["A"], true, ["A"], [], [Conn([], 0, 0)])

  lemma QueuesA()
    ensures Queued(Opened(true), "A") == QUEUED_A && Wrote(QUEUED_A) == SENT_A
  {
    assert [] + ["A"] == ["A"];
    assert WithLast(QUEUED_A, Conn(["A"], 1, 0)) == [Conn(["A"], 1, 0)];
  }

  lemma SendsA()
    ensures Called(Opened(true), "A", UP) == SENT_A
  {
    QueuesA();
    assert Flush(QUEUED_A, UP, 0) == Flush(SENT_A, UP, 1) == SENT_A;
  }

  lemma BreaksAtB()
    ensures Called(SENT_A, "B", DOWN) == BROKEN
  {
    var q := Queued(SENT_A, "B");
    assert q == Box(["B"], true, ["A", "B"], ["A"], [Conn(["A"], 1, 0)]);
    assert Torn(Last(q), "B", Failed(false, 0)) == Conn(["A"], 1, 0);
    assert Flush(q, DOWN, 0) == Broke(q, Failed(false, 0)) == BROKEN;
  }

  lemma ReplaysBAndC()
    ensures Called(BROKEN, "C", UP) == AGAIN
  {
    var q := Connects(Queued(BROKEN, "C"));
    assert q == Box(["B", "C"], true, ["A", "B", "C"], ["A"], [Conn(["A"], 1, 0), Conn([], 0, 0)]);
    var u := Box(["C"], true, ["A", "B", "C"], ["A", "B"], [Conn(["A"], 1, 0), Conn(["B"], 1, 0)]);
    assert q.conns[..1] == u.conns[..1] == [Conn(["A"], 1, 0)] && [] + ["B"] == ["B"];
    assert Wrote(q) == u && Wrote(u) == AGAIN;
    assert Flush(q, UP, 0) == Flush(u, UP, 1) == Flush(AGAIN, UP, 2) == AGAIN;
  }

  lemma ANeverArrives()
    requires Inv(ARRIVED)
    ensures Missed(ARRIVED, 0) && Seen(ARRIVED, 1) && Seen(ARRIVED, 2)
  {
    var cs := ARRIVED.conns;
    assert First(cs, 0) == 0 && First(cs, 1) == 1;
    assert SeenOn(ARRIVED, 1, 1) && SeenOn(ARRIVED, 1, 2);
    assert LostOn(ARRIVED, 0, 0) && !StrayOn(ARRIVED, 0, 0) && !StrayOn(ARRIVED, 1, 0);
    LostIsMissed(ARRIVED, 0);
  }

  /** "A" is reported as sent and vanishes with its connection, and the peer gets "B" and
      "C", although every accepted payload was reported as sent. */
  lemma SentPayloadCanVanish() returns (steps: seq<Step>)
    ensures Settled(Opened(true))
    ensures var b := Run(Opened(true), steps);
            b.accepted == b.sent == ["A", "B", "C"] && Missed(b, 0) && Seen(b, 1) && Seen(b, 2)
  {
    OpenedIsSettled(true);
    SendsA();
    BreaksAtB();
    ReplaysBAndC();
    assert Arrived(AGAIN, 2) == ARRIVED;
    var last := [Arrive(2)];
    var third := [Call("C", UP)] + last;
    var second := [Call("B", DOWN)] + third;
    steps := [Call("A", UP)] + second;
    CallIsSafe(Opened(true), "A", UP);
    CallIsSafe(SENT_A, "B", DOWN);
    CallIsSafe(BROKEN, "C", UP);
    ArrivedKeeps(AGAIN, 2);
    assert steps[1..] == second && second[1..] == third && third[1..] == last && last[1..] == [];
    assert Run(AGAIN, last) == Run(ARRIVED, []) == ARRIVED;
    assert Run(BROKEN, third) == Run(AGAIN, last);
    assert Run(SENT_A, second) == Run(BROKEN, third);
    ANeverArrives();
  }

  // ---------------------------------------------------------------- the store

  class LiminalStore {
    var pending: seq<string>
    var socket: bool
    ghost var accepted: seq<string>
    ghost var sent: seq<string>
    ghost var conns: seq<Conn>

    ghost function State(): Box
      reads this
    {
      Box(pending, socket, accepted, sent, conns)
    }

    ghost predicate Valid()
      reads this
    {
      Settled(State())
    }

    /** with_url succeeds whether or not the first connection does. */
    constructor WithUrl(connects: bool)
      ensures Valid() && State() == Opened(connects)
    {
      pending, socket, accepted, sent := [], connects, [], [];
      conns := if connects then [Conn([], 0, 0)] else [];
      new;
      OpenedIsSettled(connects);
      assert [] + [Conn([], 0, 0)] == [Conn([], 0, 0)];
    }

    /** One WebSocket write of the front of the queue. */
    method Send(link: Link, k: nat) returns (ok: bool)
      requires socket && pending != [] && conns != []
      modifies `conns
      ensures ok <==> link.At(k).Taken?
      ensures ok ==> conns == Wrote(old(State())).conns
      ensures !ok ==> State().(connected := false) == Broke(old(State()), link.At(k))
    {
      ok := link.At(k).Taken?;
      conns := if ok then Wrote(State()).conns else Broke(State(), link.At(k)).conns;
    }

    method FlushPending(link: Link)
      requires Inv(State())
      modifies this
      ensures Valid()
      ensures var b := old(State());
              State() == if b.pending == [] then b
                         else if b.connected then Flush(b, link, 0)
                         else if link.connects then Flush(Connects(b), link, 0)
                         else b
    {
      if pending == [] { return; }
      if !socket {
        if !link.connects { return; }
        ConnectsKeeps(State());
        socket, conns := true, conns + [Conn([], 0, 0)];
      }
      ghost var start := State();
      FlushKeeps(start, link, 0);
      var k := 0;
      while pending != []
        invariant conns != [] && (pending != [] ==> socket)
        invariant Flush(State(), link, k) == Flush(start, link, 0)
        decreases |pending|
      {
        var ok := Send(link, k);
        if ok {
          sent := sent + [pending[0]];
          pending := pending[1..];
          k := k + 1;
        } else {
          socket := false;
          return;
        }
      }
    }

    /** Every Store call comes here. Success means that the payload is in the outbox or
        was handed to the transport; a full outbox refuses it and changes nothing. */
    method SendImpulse(text: string, link: Link) returns (ok: bool)
      requires Valid()
      modifies this
      ensures Valid() && State() == Called(old(State()), text, link)
      ensures ok <==> old(|pending|) < 1024
      ensures !ok ==> State() == old(State())
      ensures ok ==> accepted == old(accepted) + [text] && (pending == [] || !socket)
    {
      CallIsSafe(State(), text, link);
      if |pending| >= MAX_PENDING { return false; }
      QueuedKeeps(State(), text);
      pending, accepted := pending + [text], accepted + [text];
      FlushPending(link);
      ok := true;
    }
  }
}
