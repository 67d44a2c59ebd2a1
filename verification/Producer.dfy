/** The producer's side of a stream: commitment verification, pausing, halting and the
    token loop that ties them together. */
module Producer {
  import opened Types
  import opened Commitment
  import opened Ed25519

  /** Terms of an open channel as the producer holds them, with its pricing and timing. */
  datatype Deal = Deal(
    channel: Pubkey,
    sessionKey: Pubkey,
    deposit: nat,
    price: nat,
    prepaid: nat,
    maxUnpaid: nat,
    graceMs: nat,
    pauseTimeoutMs: nat,
    valid: SigCheck)

  datatype CommitmentError =
    | WrongChannel | StaleSequence | NonMonotonic | BelowPrepaid | ExceedsDeposit
    | Unencodable | BadSignature

  // -------------------------------------------------------------- verifier

  predicate SignatureOk(d: Deal, signed: SignedCommitment)
    requires InRange(signed.message)
  {
    |signed.signature| == 64 && d.valid(d.sessionKey, MessageBytes(signed.message), signed.signature)
  }

  /** The first check a commitment fails against the last accepted one, if any. */
  function Rejection(d: Deal, last: Option<SignedCommitment>, signed: SignedCommitment)
    : Option<CommitmentError>
  {
    var m := signed.message;
    if m.channel != d.channel then Some(WrongChannel)
    else if last.Some? && m.sequence <= last.value.message.sequence then Some(StaleSequence)
    else if last.Some? && m.cumulativePaid < last.value.message.cumulativePaid then Some(NonMonotonic)
    else if m.cumulativePaid < d.prepaid then Some(BelowPrepaid)
    else if m.cumulativePaid > d.deposit then Some(ExceedsDeposit)
    else if !InRange(m) then Some(Unencodable)
    else if !SignatureOk(d, signed) then Some(BadSignature)
    else None
  }

  function Cumulative(d: Deal, last: Option<SignedCommitment>): int {
    match last case None => d.prepaid case Some(s) => s.message.cumulativePaid
  }

  function Unpaid(d: Deal, delivered: nat, last: Option<SignedCommitment>): int {
    delivered * d.price - Max(0, Cumulative(d, last) - d.prepaid)
  }

  function Ack(last: Option<SignedCommitment>): int {
    match last case None => 0 case Some(s) => s.message.sequence
  }

  class ActiveChannel {
    const deal: Deal

    var tokensDelivered: nat
    var lastCommitment: Option<SignedCommitment>
    var lastCommitAtMs: int
    var halted: bool

    constructor (deal: Deal, nowMs: int)
      ensures this.deal == deal && tokensDelivered == 0 && lastCommitment == None
      ensures lastCommitAtMs == nowMs && !halted
    {
      this.deal := deal;
      tokensDelivered, lastCommitment, lastCommitAtMs, halted := 0, None, nowMs, false;
    }

    function CumulativePaidMicro(): (r: int)
      reads this
      ensures r == Cumulative(deal, lastCommitment)
    {
      if lastCommitment == None then deal.prepaid else lastCommitment.value.message.cumulativePaid
    }

    function UnpaidValueMicro(): (r: int)
      reads this
      ensures r == Unpaid(deal, tokensDelivered, lastCommitment)
    {
      var committedOutput := Max(0, CumulativePaidMicro() - deal.prepaid);
      tokensDelivered * deal.price - committedOutput
    }

    method NoteToken()
      modifies this`tokensDelivered
      ensures tokensDelivered == old(tokensDelivered) + 1
    {
      tokensDelivered := tokensDelivered + 1;
    }

    method NoteCommit(signed: SignedCommitment, nowMs: int)
      modifies this`lastCommitment, this`lastCommitAtMs
      ensures lastCommitment == Some(signed) && lastCommitAtMs == nowMs
    {
      lastCommitment := Some(signed);
      lastCommitAtMs := nowMs;
    }

    method MarkHalted()
      modifies this`halted
      ensures halted
    {
      halted := true;
    }

    predicate ShouldPause()
      reads this
    {
      UnpaidValueMicro() >= deal.maxUnpaid
    }

    predicate ShouldHalt(nowMs: int)
      reads this
    {
      halted || nowMs - lastCommitAtMs >= deal.pauseTimeoutMs
    }
  }

  method AcceptCommitment(channel: ActiveChannel, signed: SignedCommitment, nowMs: int)
    returns (error: Option<CommitmentError>)
    modifies channel`lastCommitment, channel`lastCommitAtMs
    ensures error == Rejection(channel.deal, old(channel.lastCommitment), signed)
    ensures error == None ==> channel.lastCommitment == Some(signed) && channel.lastCommitAtMs == nowMs
    ensures error != None ==> unchanged(channel)
  {
    var m := signed.message;
    if m.channel != channel.deal.channel { return Some(WrongChannel); }
    var last := channel.lastCommitment;
    if last.Some? {
      if m.sequence <= last.value.message.sequence { return Some(StaleSequence); }
      if m.cumulativePaid < last.value.message.cumulativePaid { return Some(NonMonotonic); }
    }
    if m.cumulativePaid < channel.deal.prepaid { return Some(BelowPrepaid); }
    if m.cumulativePaid > channel.deal.deposit { return Some(ExceedsDeposit); }
    var bytes := EncodeCommitmentBytes(m);
    if bytes == None { return Some(Unencodable); }
    if |signed.signature| != 64 || !channel.deal.valid(channel.deal.sessionKey, bytes.value, signed.signature) {
      return Some(BadSignature);
    }
    channel.NoteCommit(signed, nowMs);
    return None;
  }

  // ---------------------------------------------------- the stream, abstractly

  /** Where the generator is suspended. */
  datatype Point =
    | Opened                                  // before the stream is requested
    | AwaitToken                              // waiting for the model
    | PauseSleep(token: Text, deadline: int)  // in the 10 ms sleep of the pause loop
    | GapSleep(token: Text)                   // in the inter-token sleep
    | AtYield                                 // the token is out
    | Returned

  datatype State = State(
    point: Point,
    next: nat,                                // model tokens taken
    first: bool,
    delivered: nat,
    last: Option<SignedCommitment>,
    lastAt: int,
    now: int,
    halted: bool,
    out: seq<(Text, int)>)

  /** The event loop: time passes, then either the commit endpoint gets a commitment or
      the generator is resumed. */
  datatype Event =
    | Arrive(dt: nat, signed: SignedCommitment)
    | Resume(dt: nat)

  function Fresh(now: int): State {
    State(Opened, 0, true, 0, None, now, now, false, [])
  }

  predicate Silent(d: Deal, p: State) { p.halted || p.now - p.lastAt >= d.pauseTimeoutMs }

  function Emit(p: State, token: Text): State {
    p.(delivered := p.delivered + 1, out := p.out + [(token, Ack(p.last))], point := AtYield)
  }

  function Halt(p: State): State { p.(halted := true, point := Returned) }

  /** From the pause loop's test to the next suspension. */
  function PauseCheck(d: Deal, p: State, token: Text, deadline: int): State {
    if Unpaid(d, p.delivered, p.last) >= d.maxUnpaid then p.(point := PauseSleep(token, deadline))
    else if Silent(d, p) then Halt(p)
    else if p.first then Emit(p.(first := false), token)
    else p.(point := GapSleep(token))
  }

  function Resumed(d: Deal, tokens: seq<Text>, p: State): State {
    match p.point
    case Opened => p.(lastAt := p.now, first := true, point := AwaitToken)
    case AwaitToken =>
      if p.next < |tokens| then PauseCheck(d, p.(next := p.next + 1), tokens[p.next], d.graceMs)
      else p.(point := Returned)
    case PauseSleep(token, deadline) =>
      if deadline - 10 > 0 then PauseCheck(d, p, token, deadline - 10)
      else if Silent(d, p) then Halt(p)
      else PauseCheck(d, p, token, d.graceMs)
    case GapSleep(token) => Emit(p, token)
    case AtYield => p.(lastAt := p.now, point := AwaitToken)
    case Returned => p
  }

  function Step(d: Deal, tokens: seq<Text>, p: State, e: Event): State {
    var p1 := p.(now := p.now + e.dt);
    match e
    case Arrive(_, signed) =>
      if Rejection(d, p.last, signed) == None then p1.(last := Some(signed), lastAt := p1.now) else p1
    case Resume(_) => Resumed(d, tokens, p1)
  }

  function Run(d: Deal, tokens: seq<Text>, p: State, events: seq<Event>): State {
    if events == [] then p
    else Step(d, tokens, Run(d, tokens, p, events[..|events| - 1]), events[|events| - 1])
  }

  // -------------------------------------------------- the stream, as written

  /** The asyncio event loop as seen by one stream: a clock and what happens at it. */
  class EventLoop {
    var now: int
    var script: seq<Event>
    var pos: nat

    constructor (now: int, script: seq<Event>)
      ensures this.now == now && this.script == script && pos == 0
    {
      this.now, this.script, this.pos := now, script, 0;
    }
  }

  // The generator's state, read off the objects and the loop variables.
  ghost function Snapshot(channel: ActiveChannel, loop: EventLoop, point: Point, next: nat,
                          first: bool, out: seq<(Text, int)>): State
    reads channel, loop
  {
    State(point, next, first, channel.tokensDelivered, channel.lastCommitment,
          channel.lastCommitAtMs, loop.now, channel.halted, out)
  }

  // The run so far, from `p0`.
  ghost function Sofar(d: Deal, tokens: seq<Text>, p0: State, loop: EventLoop): State
    requires loop.pos <= |loop.script|
    reads loop
  {
    Run(d, tokens, p0, loop.script[..loop.pos])
  }

  lemma SofarNext(d: Deal, tokens: seq<Text>, p0: State, loop: EventLoop)
    requires loop.pos < |loop.script|
    ensures Run(d, tokens, p0, loop.script[..loop.pos + 1])
         == Step(d, tokens, Sofar(d, tokens, p0, loop), loop.script[loop.pos])
  {
    assert loop.script[..loop.pos + 1][..loop.pos] == loop.script[..loop.pos];
  }

  /** Suspend until resumed. Commitments arriving meanwhile go through the verifier.
      Not `live` when the script ends first: the generator is then still suspended. */
  method Await(channel: ActiveChannel, loop: EventLoop, ghost tokens: seq<Text>, ghost p0: State,
               ghost point: Point, ghost next: nat, ghost first: bool, ghost out: seq<(Text, int)>)
    returns (live: bool)
    requires loop.pos <= |loop.script|
    requires Sofar(channel.deal, tokens, p0, loop) == Snapshot(channel, loop, point, next, first, out)
    modifies channel`lastCommitment, channel`lastCommitAtMs, loop`now, loop`pos
    ensures loop.pos <= |loop.script|
    ensures if live then loop.pos > old(loop.pos) else loop.pos == |loop.script|
    ensures Sofar(channel.deal, tokens, p0, loop)
         == var p := Snapshot(channel, loop, point, next, first, out);
            if live then Resumed(channel.deal, tokens, p) else p
  {
    hide Resumed, Rejection;
    while loop.pos < |loop.script|
      invariant old(loop.pos) <= loop.pos <= |loop.script|
      invariant Sofar(channel.deal, tokens, p0, loop) == Snapshot(channel, loop, point, next, first, out)
    {
      SofarNext(channel.deal, tokens, p0, loop);
      var e := loop.script[loop.pos];
      loop.pos := loop.pos + 1;
      loop.now := loop.now + e.dt;
      match e {
        case Resume(_) => return true;
        case Arrive(_, signed) => var _ := AcceptCommitment(channel, signed, loop.now);
      }
    }
    return false;
  }

  datatype Pause = Proceed | Lapsed | Suspended(at: Point)

  /** The pause loop for one token. */
  method PauseLoop(channel: ActiveChannel, loop: EventLoop, token: Text, ghost tokens: seq<Text>,
                   ghost p0: State, ghost i: nat, ghost first: bool, ghost out: seq<(Text, int)>)
    returns (pause: Pause)
    requires loop.pos <= |loop.script|
    requires Sofar(channel.deal, tokens, p0, loop)
          == PauseCheck(channel.deal, Snapshot(channel, loop, AwaitToken, i, first, out), token, channel.deal.graceMs)
    modifies channel`lastCommitment, channel`lastCommitAtMs, channel`halted, loop`now, loop`pos
    ensures old(loop.pos) <= loop.pos <= |loop.script|
    ensures match pause
            case Suspended(at) => loop.pos == |loop.script|
              && Sofar(channel.deal, tokens, p0, loop) == Snapshot(channel, loop, at, i, first, out)
            case Lapsed =>
              Sofar(channel.deal, tokens, p0, loop) == Snapshot(channel, loop, Returned, i, first, out)
            case Proceed =>
              !channel.ShouldPause()
              && Sofar(channel.deal, tokens, p0, loop)
                 == PauseCheck(channel.deal, Snapshot(channel, loop, AwaitToken, i, first, out), token,
                               channel.deal.graceMs)
  {
    hide Run, Unpaid;
    ghost var d := channel.deal;
    var deadline: int := channel.deal.graceMs;
    while channel.ShouldPause()
      invariant old(loop.pos) <= loop.pos <= |loop.script|
      invariant Sofar(d, tokens, p0, loop)
             == PauseCheck(d, Snapshot(channel, loop, AwaitToken, i, first, out), token, deadline)
      decreases |loop.script| - loop.pos
    {
      var live := Await(channel, loop, tokens, p0, PauseSleep(token, deadline), i, first, out);
      if !live { return Suspended(PauseSleep(token, deadline)); }
      deadline := deadline - 10;
      if deadline <= 0 {
        if channel.ShouldHalt(loop.now) {
          channel.MarkHalted();
          return Lapsed;
        }
        deadline := channel.deal.graceMs;
      }
    }
    return Proceed;
  }

  /** After the pause loop: the halt test, the inter-token gap, the yield. `stop` says
      where the generator stopped, if it did. */
  method SendToken(channel: ActiveChannel, loop: EventLoop, token: Text, first: bool, out: seq<(Text, int)>,
                   ghost tokens: seq<Text>, ghost p0: State, ghost i: nat)
    returns (out': seq<(Text, int)>, ghost stop: Option<Point>, stopped: bool)
    requires loop.pos <= |loop.script| && !channel.ShouldPause()
    requires Sofar(channel.deal, tokens, p0, loop)
          == PauseCheck(channel.deal, Snapshot(channel, loop, AwaitToken, i, first, out), token, channel.deal.graceMs)
    modifies channel, loop`now, loop`pos
    ensures loop.pos <= |loop.script|
    ensures stopped == stop.Some?
    ensures stop == None ==>
              Sofar(channel.deal, tokens, p0, loop) == Snapshot(channel, loop, AwaitToken, i, false, out')
    ensures stop.Some? ==>
              && (stop == Some(Returned) || loop.pos == |loop.script|)
              && Sofar(channel.deal, tokens, p0, loop)
                 == Snapshot(channel, loop, stop.value, i, first && out' == out, out')
  {
    out' := out;
    if channel.ShouldHalt(loop.now) {
      channel.MarkHalted();
      return out', Some(Returned), true;
    }
    if !first {
      var live := Await(channel, loop, tokens, p0, GapSleep(token), i, first, out);
      if !live { return out', Some(GapSleep(token)), true; }
    }
    channel.NoteToken();
    var ack := if channel.lastCommitment.Some? then channel.lastCommitment.value.message.sequence else 0;
    out' := out + [(token, ack)];
    var live := Await(channel, loop, tokens, p0, AtYield, i, false, out');
    if !live { return out', Some(AtYield), true; }
    channel.lastCommitAtMs := loop.now;
    return out', None, false;
  }

  /** `wrap_stream`, from the moment the stream is requested. The state it leaves is the
      abstract run of the part of the script it consumed: all of it, unless the
      generator returned. */
  method WrapStream(channel: ActiveChannel, loop: EventLoop, tokens: seq<Text>, ghost p0: State)
    returns (out: seq<(Text, int)>, ghost end: Point)
    requires loop.pos <= |loop.script|
    requires Sofar(channel.deal, tokens, p0, loop)
          == Resumed(channel.deal, tokens, Snapshot(channel, loop, Opened, 0, true, []))
    modifies channel, loop`now, loop`pos
    ensures loop.pos <= |loop.script|
    ensures var p := Sofar(channel.deal, tokens, p0, loop);
            p == Snapshot(channel, loop, end, p.next, p.first, out)
    ensures loop.pos < |loop.script| ==> end == Returned
  {
    channel.lastCommitAtMs := loop.now;
    out := [];
    var first := true;
    var i := 0;
    while true
      invariant 0 <= i <= |tokens| && loop.pos <= |loop.script|
      invariant Sofar(channel.deal, tokens, p0, loop) == Snapshot(channel, loop, AwaitToken, i, first, out)
      decreases |tokens| - i
    {
      var live := Await(channel, loop, tokens, p0, AwaitToken, i, first, out);
      if !live { return out, AwaitToken; }
      if i == |tokens| { return out, Returned; }
      var token := tokens[i];
      i := i + 1;

      var pause := PauseLoop(channel, loop, token, tokens, p0, i, first, out);
      if pause != Proceed {
        return out, if pause == Lapsed then Returned else pause.at;
      }
      ghost var stop;
      var stopped;
      out, stop, stopped := SendToken(channel, loop, token, first, out, tokens, p0, i);
      if stopped { return out, stop.value; }
      first := false;
    }
  }
}
