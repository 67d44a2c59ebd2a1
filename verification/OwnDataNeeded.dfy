/** Why the upper bound on the payout needs self-contained signature instructions. */
module OwnDataNeeded {
  import opened Types
  import opened Commitment
  import opened Ed25519
  import opened ChannelState
  import opened TapProgram
  import opened LedgerRuns
  import opened EndToEnd

  /** A commitment to the whole deposit. */
  function WholeDeposit(c: Config): WireMessage {
    CommitMessage(c.deal.channel, 1, c.start.depositMicro, 0, 0)
  }

  /** The transaction of `Ed25519.ScannerAndRuntimeDisagree`: the scanner reads that
      commitment and an arbitrary `signature` under the session key, the runtime verifies
      `checked`. */
  function SplitTx(c: Config, signature: Signature, checked: Triple, rest: Instruction): Transaction
    requires |checked.msg| == MESSAGE_LEN
  {
    [PointingAt(c.deal.sessionKey, signature, MessageBytes(WholeDeposit(c)), 1),
     Built(checked.pk, checked.sig, checked.msg), rest]
  }

  lemma WholeDepositSettles(c: Config, ch: Channel, now: i64)
    requires ConfigOk(c) && ch == c.start && SettleInTime(ch, now)
    ensures var r := SettleChannel(ch, c.deal.channel, WholeDeposit(c), true, now);
            r.Ok? && r.value.status == Settling && r.value.settledAt == now
            && r.value.disputeSecs == ch.disputeSecs && Payout(r.value) == c.deal.deposit
  {
  }

  /** From any start of the protocol: the program accepts that settlement, and after the
      dispute window the channel pays the whole deposit, with nothing signed, sent or
      received. So `OwnDataOnly` cannot be dropped from `EndToEnd.Allowed`: without it the
      payout is bounded by the deposit alone. */
  lemma BoundNeedsOwnData(c: Config, s0: System, signature: Signature, checked: Triple, rest: Instruction)
    requires ConfigOk(c) && Initial(c, s0) && SettleInTime(c.start, s0.ledger.now)
    requires s0.ledger.now + c.start.disputeSecs < I64_MAX
    requires |checked.msg| == MESSAGE_LEN && c.deal.valid(checked.pk, checked.msg, checked.sig)
    requires rest.programId != ED25519_PROGRAM_ID
    ensures var tx := SplitTx(c, signature, checked, rest);
            var settled := Apply(s0.ledger, Exec(Settle(c.deal.channel, WholeDeposit(c), signature, tx)));
            var w := Apply(settled, Wait(c.start.disputeSecs + 1));
            && RuntimePasses(c.deal.valid, tx) && !OwnDataOnly(tx)
            && s0.session.sent == [] && s0.session.tokens == 0 && s0.producer.delivered == 0
            && c.deal.channel in w.channels
            && CloseTimeError(w.channels[c.deal.channel], w.now).None?
            && Payout(w.channels[c.deal.channel]) == c.deal.deposit
  {
    hide PointingAt, Built, MessageBytes, RuntimePasses, OwnDataOnly, HasSibling, SettleChannel;
    var ch := s0.ledger.channels[c.deal.channel];
    ScannerAndRuntimeDisagree(
      c.deal.valid, Triple(c.deal.sessionKey, signature, MessageBytes(WholeDeposit(c))), checked, rest);
    WholeDepositSettles(c, ch, s0.ledger.now);
    assert Signed(ch, WholeDeposit(c), signature, SplitTx(c, signature, checked, rest));
  }
}
