/** What the producer holds is what the chain pays: its verifier against the program's
    guards, one settlement against many, and the order in which commitments turn up. */
module Netting {
  import opened Types
  import opened Commitment
  import opened Ed25519
  import opened ChannelState
  import opened TapProgram
  import opened LedgerRuns
  import P = Producer

  /** The producer's record of the terms is the on-chain one. */
  predicate Agrees(d: P.Deal, ch: Channel) {
    && d.sessionKey == ch.sessionKey
    && d.deposit == ch.depositMicro
    && d.prepaid == ch.prepaidInputMicro
    && d.price == ch.outputPriceMicro
  }

  // --------------------------------------------------- submitting on chain

  predicate Wire(sc: SignedCommitment) { InRange(sc.message) && |sc.signature| == 64 }

  /** Submit one commitment: settle while Active, dispute once Settling. */
  function Submit(d: P.Deal, ch: Channel, sc: SignedCommitment, now: i64): Channel {
    if !Wire(sc) then ch
    else
      var r := if ch.status == Active
               then SettleChannel(ch, d.channel, sc.message, P.SignatureOk(d, sc), now)
               else DisputeChannel(ch, d.channel, sc.message, P.SignatureOk(d, sc), now);
      match r case Ok(ch') => ch' case Err(_) => ch
  }

  /** The runtime executes a transaction only if its signature instructions verify. */
  ghost function Land(valid: SigCheck, w: Ledger, ix: Ix): Ledger {
    if (ix.Settle? || ix.Dispute?) && !RuntimePasses(valid, ix.tx) then w else Apply(w, Exec(ix))
  }

  /** The producer's transaction: the verify instruction, then the program's own. */
  function SdkTx(key: Pubkey, sc: SignedCommitment, rest: Instruction): Transaction
    requires Wire(sc)
  {
    [Built(key, sc.signature, MessageBytes(sc.message)), rest]
  }

  /** `Submit` is what landing that transaction does to the channel's record. */
  lemma SubmitIsLanding(d: P.Deal, w: Ledger, sc: SignedCommitment, rest: Instruction)
    requires d.channel in w.channels && Agrees(d, w.channels[d.channel]) && Wire(sc)
    requires w.channels[d.channel].status != Closed
    requires rest.programId != ED25519_PROGRAM_ID
    ensures var ch := w.channels[d.channel];
            var tx := SdkTx(ch.sessionKey, sc, rest);
            var ix := if ch.status == Active then Settle(d.channel, sc.message, sc.signature, tx)
                      else Dispute(d.channel, sc.message, sc.signature, tx);
            Land(d.valid, w, ix) == w.(channels := w.channels[d.channel := Submit(d, ch, sc, w.now)])
  {
    var ch := w.channels[d.channel];
    SdkTransactionAcceptedIffValid(d.valid, ch.sessionKey, sc.signature, MessageBytes(sc.message), rest);
    assert w.channels[d.channel := ch] == w.channels;
  }

  /** The producer only ever sends `settle`; on a channel that is no longer Active its
      transaction changes nothing. */
  lemma SettleLands(d: P.Deal, w: Ledger, sc: SignedCommitment, rest: Instruction)
    requires d.channel in w.channels && Agrees(d, w.channels[d.channel]) && Wire(sc)
    requires rest.programId != ED25519_PROGRAM_ID
    ensures var ch := w.channels[d.channel];
            Land(d.valid, w, Settle(d.channel, sc.message, sc.signature, SdkTx(ch.sessionKey, sc, rest)))
            == if ch.status == Active then w.(channels := w.channels[d.channel := Submit(d, ch, sc, w.now)]) else w
  {
    if w.channels[d.channel].status == Active {
      SubmitIsLanding(d, w, sc, rest);
    }
  }

  datatype Submission = Submission(signed: SignedCommitment, at: i64)

  function SubmitAll(d: P.Deal, ch: Channel, subs: seq<Submission>): Channel {
    if subs == [] then ch
    else
      var last := subs[|subs| - 1];
      Submit(d, SubmitAll(d, ch, subs[..|subs| - 1]), last.signed, last.at)
  }

  /** Every submission is made while the channel's current window is open. */
  predicate InWindow(d: P.Deal, ch: Channel, subs: seq<Submission>) {
    subs == [] ||
    var init := subs[..|subs| - 1];
    var now := subs[|subs| - 1].at;
    var ch' := SubmitAll(d, ch, init);
    InWindow(d, ch, init) && (SettleInTime(ch', now) || DisputeInTime(ch', now))
  }

  function Messages(subs: seq<Submission>): seq<SignedCommitment> {
    seq(|subs|, i requires 0 <= i < |subs| => subs[i].signed)
  }

  // --------------------------------------------------- the producer's list

  /** The verifier run over a list: what it ends up holding. */
  function VerifyAll(d: P.Deal, list: seq<SignedCommitment>): Option<SignedCommitment> {
    if list == [] then None
    else
      var held, sc := VerifyAll(d, list[..|list| - 1]), list[|list| - 1];
      if P.Rejection(d, held, sc) == None then Some(sc) else held
  }

  /** Settling only what the producer holds. */
  function SettleHeld(d: P.Deal, ch: Channel, held: Option<SignedCommitment>, now: i64): Channel {
    match held case None => ch case Some(sc) => Submit(d, ch, sc, now)
  }

  function FirstGood(d: P.Deal, list: seq<SignedCommitment>): Option<CommitMessage> {
    if list == [] then None
    else
      var earlier, sc := FirstGood(d, list[..|list| - 1]), list[|list| - 1];
      if earlier.Some? then earlier
      else if P.Rejection(d, None, sc) == None then Some(sc.message) else None
  }

  /** The check the verifier omits: the first acceptable commitment must be one the
      chain can settle, or worth no more than the floor. */
  predicate FirstCountsOnChain(d: P.Deal, list: seq<SignedCommitment>) {
    match FirstGood(d, list)
    case None => true
    case Some(m) => m.sequence >= 1 || m.cumulativePaid == d.prepaid
  }

  // ------------------------------------------------------ netting

  // How the chain's record and the producer's holding correspond.
  predicate Mirrors(d: P.Deal, ch: Channel, held: Option<SignedCommitment>) {
    if held == None || held.value.message.sequence == 0 then
      && ch.status == Active && ch.lastSequence == 0 && ch.lastCumulativePaid == 0
      && (held.Some? ==> held.value.message.cumulativePaid == d.prepaid && InRange(held.value.message))
    else
      && ch.status == Settling
      && ch.lastSequence == held.value.message.sequence
      && ch.lastCumulativePaid == held.value.message.cumulativePaid
      && Wire(held.value) && P.Rejection(d, None, held.value) == None
  }

  predicate FreshChannel(d: P.Deal, ch: Channel) {
    Agrees(d, ch) && ChannelOk(ch) && ch.status == Active
  }

  lemma SubmitMirrors(d: P.Deal, ch: Channel, held: Option<SignedCommitment>, sc: SignedCommitment, now: i64)
    requires Agrees(d, ch) && Mirrors(d, ch, held)
    requires SettleInTime(ch, now) || DisputeInTime(ch, now)
    requires held == None && P.Rejection(d, None, sc) == None ==>
               sc.message.sequence >= 1 || sc.message.cumulativePaid == d.prepaid
    ensures Agrees(d, Submit(d, ch, sc, now))
    ensures Mirrors(d, Submit(d, ch, sc, now), if P.Rejection(d, held, sc) == None then Some(sc) else held)
  {
  }

  lemma {:induction false} RunsMirror(d: P.Deal, ch: Channel, subs: seq<Submission>)
    requires FreshChannel(d, ch) && InWindow(d, ch, subs)
    requires FirstCountsOnChain(d, Messages(subs))
    ensures Agrees(d, SubmitAll(d, ch, subs))
    ensures Mirrors(d, SubmitAll(d, ch, subs), VerifyAll(d, Messages(subs)))
    ensures VerifyAll(d, Messages(subs)) == None <==> FirstGood(d, Messages(subs)) == None
  {
    if subs != [] {
      var n := |subs| - 1;
      assert Messages(subs)[..n] == Messages(subs[..n]);
      RunsMirror(d, ch, subs[..n]);
      var held := VerifyAll(d, Messages(subs[..n]));
      SubmitMirrors(d, SubmitAll(d, ch, subs[..n]), held, subs[n].signed, subs[n].at);
    }
  }

  /** One settlement stands for all: settling only what the producer holds leaves the
      sequence, the amount and the payout that submitting every commitment leaves, and
      that payout is what the producer counts as paid. */
  predicate Nets(d: P.Deal, ch: Channel, subs: seq<Submission>, at: i64) {
    var held := VerifyAll(d, Messages(subs));
    var one, all := SettleHeld(d, ch, held, at), SubmitAll(d, ch, subs);
    && one.lastSequence == all.lastSequence
    && one.lastCumulativePaid == all.lastCumulativePaid
    && Payout(one) == Payout(all) == P.Cumulative(d, held)
  }

  lemma MirrorsNet(d: P.Deal, ch: Channel, subs: seq<Submission>, at: i64)
    requires FreshChannel(d, ch) && SettleInTime(ch, at)
    requires InWindow(d, ch, subs) && FirstCountsOnChain(d, Messages(subs))
    ensures Nets(d, ch, subs, at)
  {
    RunsMirror(d, ch, subs);
    var held := VerifyAll(d, Messages(subs));
    if held.Some? && held.value.message.sequence >= 1 {
      SubmitMirrors(d, ch, None, held.value, at);
    }
  }

  lemma {:induction false} WindowPrefix(d: P.Deal, ch: Channel, subs: seq<Submission>, n: nat)
    requires InWindow(d, ch, subs) && n <= |subs|
    ensures InWindow(d, ch, subs[..n])
  {
    if n < |subs| {
      WindowPrefix(d, ch, subs[..|subs| - 1], n);
      assert subs[..|subs| - 1][..n] == subs[..n];
    } else {
      assert subs[..n] == subs;
    }
  }

  lemma {:induction false} FirstGoodPrefix(d: P.Deal, list: seq<SignedCommitment>, n: nat)
    requires n <= |list|
    ensures FirstGood(d, list[..n]).Some? ==> FirstGood(d, list) == FirstGood(d, list[..n])
  {
    if n < |list| {
      FirstGoodPrefix(d, list[..|list| - 1], n);
      assert list[..|list| - 1][..n] == list[..n];
    } else {
      assert list[..n] == list;
    }
  }

  // Where the first good commitment is, the verifier holds exactly it.
  lemma {:induction false} FirstGoodIsHeld(d: P.Deal, list: seq<SignedCommitment>) returns (n: nat)
    requires FirstGood(d, list).Some?
    ensures n <= |list| && VerifyAll(d, list[..n]).Some?
    ensures Some(VerifyAll(d, list[..n]).value.message) == FirstGood(d, list)
  {
    var k := |list| - 1;
    if FirstGood(d, list[..k]).Some? {
      n := FirstGoodIsHeld(d, list[..k]);
      assert list[..k][..n] == list[..n];
    } else {
      NothingGoodNothingHeld(d, list[..k]);
      n := |list|;
      assert list[..n] == list;
    }
  }

  lemma {:induction false} NothingGoodNothingHeld(d: P.Deal, list: seq<SignedCommitment>)
    requires FirstGood(d, list) == None
    ensures VerifyAll(d, list) == None
  {
    if list != [] { NothingGoodNothingHeld(d, list[..|list| - 1]); }
  }

  /** Netting, exactly: over any list of commitments, honest or not, the producer can at
      every moment net what it holds if and only if the first commitment it accepted has
      sequence at least 1 (or is worth only the floor). The verifier does not check this;
      a session's own chain always meets it. */
  lemma {:induction false} NettingEquivalence(d: P.Deal, ch: Channel, subs: seq<Submission>, at: i64)
    requires FreshChannel(d, ch) && SettleInTime(ch, at) && InWindow(d, ch, subs)
    ensures (forall n: nat :: n <= |subs| ==> Nets(d, ch, subs[..n], at))
       <==> FirstCountsOnChain(d, Messages(subs))
  {
    var list := Messages(subs);
    if FirstCountsOnChain(d, list) {
      forall n: nat | n <= |subs| ensures Nets(d, ch, subs[..n], at) {
        WindowPrefix(d, ch, subs, n);
        assert Messages(subs[..n]) == list[..n];
        FirstGoodPrefix(d, list, n);
        MirrorsNet(d, ch, subs[..n], at);
      }
    } else {
      var n := FirstGoodIsHeld(d, list);
      assert Messages(subs[..n]) == list[..n];
      assert !Nets(d, ch, subs[..n], at);
    }
  }

  /** And it does fail: the verifier accepts a validly signed first commitment with
      sequence 0 and any amount above the floor, which the chain will never settle. */
  lemma SequenceZeroDoesNotNet(d: P.Deal, ch: Channel, paid: u64, signature: Signature, at: i64)
    requires FreshChannel(d, ch) && SettleInTime(ch, at) && d.prepaid < paid <= d.deposit
    requires P.SignatureOk(d, SignedCommitment(CommitMessage(d.channel, 0, paid, 0, 0), signature))
    ensures var sc := SignedCommitment(CommitMessage(d.channel, 0, paid, 0, 0), signature);
            var subs := [Submission(sc, at)];
            && VerifyAll(d, Messages(subs)) == Some(sc) && InWindow(d, ch, subs)
            && !FirstCountsOnChain(d, Messages(subs)) && !Nets(d, ch, subs, at)
            && Payout(SubmitAll(d, ch, subs)) == d.prepaid < P.Cumulative(d, VerifyAll(d, Messages(subs)))
  {
    var sc := SignedCommitment(CommitMessage(d.channel, 0, paid, 0, 0), signature);
    var subs := [Submission(sc, at)];
    assert Messages(subs) == [sc] && subs[..0] == [] && [sc][..0] == [];
    assert VerifyAll(d, [sc]) == Some(sc) && FirstGood(d, [sc]) == Some(sc.message);
    assert SubmitAll(d, ch, subs) == Submit(d, ch, sc, at) == ch;
  }

  // --------------------------------------------------- confluence

  /** A chain of commitments one session signed: sequences 1, 2, 3, ..., amounts inside
      the channel's bounds and never falling. */
  ghost predicate IsChain(d: P.Deal, chain: seq<CommitMessage>) {
    && (forall i: nat :: i < |chain| ==>
          && InRange(chain[i]) && chain[i].channel == d.channel && chain[i].sequence == i + 1
          && d.prepaid <= chain[i].cumulativePaid <= d.deposit)
    && (forall i: nat, j: nat :: i <= j < |chain| ==> chain[i].cumulativePaid <= chain[j].cumulativePaid)
  }

  ghost predicate FromChain(d: P.Deal, chain: seq<CommitMessage>, list: seq<SignedCommitment>) {
    forall sc :: sc in list ==> sc.message in chain && InRange(sc.message) && P.SignatureOk(d, sc)
  }

  /** Whatever the order, losses and repetitions, the verifier ends with the highest
      member of the chain it was shown. */
  lemma {:induction false} VerifierKeepsHighest(d: P.Deal, chain: seq<CommitMessage>, list: seq<SignedCommitment>)
    requires IsChain(d, chain) && FromChain(d, chain, list)
    ensures list == [] <==> VerifyAll(d, list) == None
    ensures list != [] ==> VerifyAll(d, list).value in list
    ensures forall sc :: sc in list ==> sc.message.sequence <= VerifyAll(d, list).value.message.sequence
  {
    if list != [] {
      var init, sc := list[..|list| - 1], list[|list| - 1];
      assert forall x :: x in list <==> x in init || x == sc;
      VerifierKeepsHighest(d, chain, init);
      var j: nat :| j < |chain| && chain[j] == sc.message;
      if init != [] {
        var held := VerifyAll(d, init).value;
        var i: nat :| i < |chain| && chain[i] == held.message;
      }
    }
  }

  ghost predicate Shown(m: CommitMessage, list: seq<SignedCommitment>) {
    exists sc :: sc in list && sc.message == m
  }

  ghost predicate SameCommitments(a: seq<SignedCommitment>, b: seq<SignedCommitment>) {
    forall m :: Shown(m, a) <==> Shown(m, b)
  }

  // What the verifier holds: the chain's highest member among those shown.
  ghost predicate Highest(chain: seq<CommitMessage>, list: seq<SignedCommitment>, held: Option<SignedCommitment>) {
    && (held.Some? ==>
          var m := held.value.message;
          Shown(m, list) && 1 <= m.sequence <= |chain| && m == chain[m.sequence - 1])
    && (forall m :: Shown(m, list) ==> held.Some? && m.sequence <= held.value.message.sequence)
  }

  lemma {:induction false} HeldIsHighest(d: P.Deal, chain: seq<CommitMessage>, list: seq<SignedCommitment>)
    requires IsChain(d, chain) && FromChain(d, chain, list)
    ensures Highest(chain, list, VerifyAll(d, list))
  {
    VerifierKeepsHighest(d, chain, list);
    if list != [] {
      var held := VerifyAll(d, list).value;
      var i: nat :| i < |chain| && chain[i] == held.message;
    }
  }

  lemma HighestIsUnique(
      chain: seq<CommitMessage>, a: seq<SignedCommitment>, b: seq<SignedCommitment>,
      ha: Option<SignedCommitment>, hb: Option<SignedCommitment>)
    requires Highest(chain, a, ha) && Highest(chain, b, hb) && SameCommitments(a, b)
    ensures ha.Some? <==> hb.Some?
    ensures ha.Some? ==> ha.value.message == hb.value.message
  {
    if ha.Some? { assert Shown(ha.value.message, b); }
    if hb.Some? { assert Shown(hb.value.message, a); }
  }

  lemma {:induction false} VerifierIsConfluent(
      d: P.Deal, chain: seq<CommitMessage>, a: seq<SignedCommitment>, b: seq<SignedCommitment>)
    requires IsChain(d, chain) && FromChain(d, chain, a) && FromChain(d, chain, b)
    requires SameCommitments(a, b)
    ensures VerifyAll(d, a).Some? <==> VerifyAll(d, b).Some?
    ensures VerifyAll(d, a).Some? ==> VerifyAll(d, a).value.message == VerifyAll(d, b).value.message
  {
    HeldIsHighest(d, chain, a);
    HeldIsHighest(d, chain, b);
    HighestIsUnique(chain, a, b, VerifyAll(d, a), VerifyAll(d, b));
  }

  /** Two deliveries of the same commitments end the same, and so does the chain when
      they are submitted in time: only what arrived matters, not how. */
  lemma {:induction false} DeliveryOrderIsIrrelevant(
      d: P.Deal, ch: Channel, chain: seq<CommitMessage>, a: seq<Submission>, b: seq<Submission>)
    requires IsChain(d, chain) && FreshChannel(d, ch)
    requires FromChain(d, chain, Messages(a)) && FromChain(d, chain, Messages(b))
    requires InWindow(d, ch, a) && InWindow(d, ch, b)
    requires SameCommitments(Messages(a), Messages(b))
    ensures P.Cumulative(d, VerifyAll(d, Messages(a))) == P.Cumulative(d, VerifyAll(d, Messages(b)))
    ensures SubmitAll(d, ch, a).lastSequence == SubmitAll(d, ch, b).lastSequence
    ensures Payout(SubmitAll(d, ch, a)) == Payout(SubmitAll(d, ch, b))
  {
    VerifierIsConfluent(d, chain, Messages(a), Messages(b));
    ChainCounts(d, chain, Messages(a));
    ChainCounts(d, chain, Messages(b));
    RunsMirror(d, ch, a);
    RunsMirror(d, ch, b);
  }

  lemma {:induction false} ChainCounts(d: P.Deal, chain: seq<CommitMessage>, list: seq<SignedCommitment>)
    requires IsChain(d, chain) && FromChain(d, chain, list)
    ensures FirstCountsOnChain(d, list)
  {
    if list != [] {
      var init, sc := list[..|list| - 1], list[|list| - 1];
      assert forall x :: x in init ==> x in list;
      ChainCounts(d, chain, init);
      var j: nat :| j < |chain| && chain[j] == sc.message;
    }
  }

  /** The submissions that met an open window. */
  function InTime(d: P.Deal, ch: Channel, subs: seq<Submission>): seq<Submission> {
    if subs == [] then []
    else
      var init, last := subs[..|subs| - 1], subs[|subs| - 1];
      var now := SubmitAll(d, ch, init);
      if SettleInTime(now, last.at) || DisputeInTime(now, last.at)
      then InTime(d, ch, init) + [last] else InTime(d, ch, init)
  }

  /** Late submissions count for nothing, so the results above cover any list. */
  lemma {:induction false} LateSubmissionsDropOut(d: P.Deal, ch: Channel, subs: seq<Submission>)
    ensures SubmitAll(d, ch, InTime(d, ch, subs)) == SubmitAll(d, ch, subs)
    ensures InWindow(d, ch, InTime(d, ch, subs))
    ensures forall x :: x in InTime(d, ch, subs) ==> x in subs
  {
    if subs != [] {
      var init, last := subs[..|subs| - 1], subs[|subs| - 1];
      LateSubmissionsDropOut(d, ch, init);
      assert (InTime(d, ch, init) + [last])[..|InTime(d, ch, init)|] == InTime(d, ch, init);
    }
  }

  ghost predicate RecordsHighest(d: P.Deal, record: Channel, list: seq<SignedCommitment>) {
    && (forall sc :: sc in list ==> sc.message.sequence <= record.lastSequence)
    && (if list == [] then record.lastSequence == 0 && Payout(record) == d.prepaid
        else exists sc :: sc in list && sc.message.sequence == record.lastSequence
                          && sc.message.cumulativePaid == Payout(record))
  }

  lemma MirrorOfHighest(d: P.Deal, record: Channel, chain: seq<CommitMessage>, list: seq<SignedCommitment>)
    requires IsChain(d, chain) && FromChain(d, chain, list)
    requires Agrees(d, record) && Mirrors(d, record, VerifyAll(d, list))
    ensures RecordsHighest(d, record, list)
  {
    hide P.Rejection, P.SignatureOk, VerifyAll;
    VerifierKeepsHighest(d, chain, list);
    if list != [] {
      var held := VerifyAll(d, list).value;
      var i: nat :| i < |chain| && chain[i] == held.message;
    }
  }

  lemma MessagesIn(some: seq<Submission>, subs: seq<Submission>)
    requires forall x :: x in some ==> x in subs
    ensures forall sc :: sc in Messages(some) ==> sc in Messages(subs)
  {
    forall sc | sc in Messages(some) ensures sc in Messages(subs) {
      var i :| 0 <= i < |some| && some[i].signed == sc;
      assert some[i] in some;
      var j :| 0 <= j < |subs| && subs[j] == some[i];
      assert Messages(subs)[j] == sc;
    }
  }

  /** Whatever members of a session's chain are submitted, whenever and in whatever order:
      the record is the highest-sequence one of those submitted in time. */
  lemma HighestInTimeIsRecorded(d: P.Deal, ch: Channel, chain: seq<CommitMessage>, subs: seq<Submission>)
    requires IsChain(d, chain) && FreshChannel(d, ch) && FromChain(d, chain, Messages(subs))
    ensures RecordsHighest(d, SubmitAll(d, ch, subs), Messages(InTime(d, ch, subs)))
  {
    hide IsChain, FreshChannel, Messages, Mirrors, RecordsHighest, P.SignatureOk;
    var some := InTime(d, ch, subs);
    LateSubmissionsDropOut(d, ch, subs);
    MessagesIn(some, subs);
    ChainCounts(d, chain, Messages(some));
    RunsMirror(d, ch, some);
    MirrorOfHighest(d, SubmitAll(d, ch, subs), chain, Messages(some));
  }

  /** A later member of the chain can always supersede an earlier one in the window, and
      superseding never lowers the payout. */
  lemma LaterCommitmentSupersedes(
      d: P.Deal, ch: Channel, chain: seq<CommitMessage>, i: nat, sc: SignedCommitment, j: nat, now: i64)
    requires IsChain(d, chain) && Agrees(d, ch) && i < j < |chain|
    requires ch.status == Settling && ch.lastSequence == chain[i].sequence
    requires ch.lastCumulativePaid == chain[i].cumulativePaid
    requires Wire(sc) && sc.message == chain[j] && P.SignatureOk(d, sc) && DisputeInTime(ch, now)
    ensures Submit(d, ch, sc, now).lastSequence == j + 1
    ensures Payout(Submit(d, ch, sc, now)) == chain[j].cumulativePaid >= Payout(ch)
  {
  }
}
