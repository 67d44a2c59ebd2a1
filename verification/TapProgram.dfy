/** The on-chain program: `open_channel`, `settle`, `dispute`, `close`. Each handler is
    a method over the ledger; `Execute` gives the meaning of one instruction. */
module TapProgram {
  import opened Types
  import opened Commitment
  import opened Ed25519
  import opened ChannelState

  const MAX_TRAILING_BUFFER_TOKENS := 64
  const MAX_DISPUTE_WINDOW_SECS := 600
  const MAX_CHANNEL_DURATION_SECS := 60 * 60 * 24 * 30

  datatype TapError =
    | ChannelNotActive | ChannelNotSettling | DisputeWindowOpen | DisputeWindowElapsed
    | DurationTooLong | DisputeWindowTooLong | TrailingBufferTooLarge
    | DepositZero | InputPriceZero | OutputPriceZero | PrepaidInputExceedsDeposit
    | InvalidCommitmentSignature | CommitmentChannelMismatch | CommitmentSequenceStale
    | CommitmentNonMonotonic | CommitmentBelowPrepaidInput | CommitmentExceedsDeposit
    | ChannelExpired
    | AccountConstraint      // an Anchor account check failed
    | InsufficientFunds | MintMismatch | VaultNotEmpty   // token-program errors

  datatype TokenAccount = TokenAccount(owner: Pubkey, mint: Pubkey, amount: nat)

  // A channel's escrow account, its own authority; keyed by the channel it belongs to.
  datatype Vault = Vault(mint: Pubkey, amount: nat)

  datatype Ledger = Ledger(
    channels: map<Pubkey, Channel>,
    vaults: map<Pubkey, Vault>,
    wallets: map<Pubkey, TokenAccount>,
    now: i64)

  datatype OpenArgs = OpenArgs(
    channel: Pubkey, bump: u8, vaultBump: u8,
    consumer: Pubkey, producer: Pubkey, mint: Pubkey, consumerUsdc: Pubkey,
    nonce: u64, sessionKey: Pubkey, depositMicro: u64,
    inputPriceMicro: u64, outputPriceMicro: u64, prepaidInputMicro: u64,
    durationSecs: u32, disputeSecs: u32, trailingBuffer: u32)

  type Transaction = tx: seq<Instruction> | |tx| <= 0xFFFF witness []

  datatype Ix =
    | Open(args: OpenArgs)
    | Settle(channel: Pubkey, commitment: WireMessage, signature: Signature, tx: Transaction)
    | Dispute(channel: Pubkey, commitment: WireMessage, signature: Signature, tx: Transaction)
    | Close(channel: Pubkey, producerUsdc: Pubkey, consumerUsdc: Pubkey)

  // ---------------------------------------------------------- one channel

  function DisputeUntil(ch: Channel): i64 { SaturatingAdd(ch.settledAt, ch.disputeSecs) }

  /** The commitment guards `settle` and `dispute` share, in the order checked. */
  function CommitmentError(ch: Channel, addr: Pubkey, c: WireMessage): Option<TapError> {
    if c.channel != addr then Some(CommitmentChannelMismatch)
    else if c.sequence <= ch.lastSequence then Some(CommitmentSequenceStale)
    else if c.cumulativePaid < ch.lastCumulativePaid then Some(CommitmentNonMonotonic)
    else if c.cumulativePaid < ch.prepaidInputMicro then Some(CommitmentBelowPrepaidInput)
    else if c.cumulativePaid > ch.depositMicro then Some(CommitmentExceedsDeposit)
    else None
  }

  predicate Signed(ch: Channel, c: WireMessage, sig: Signature, tx: Transaction) {
    HasSibling(tx, Triple(ch.sessionKey, sig, MessageBytes(c)))
  }

  function SettleChannel(ch: Channel, addr: Pubkey, c: WireMessage, signed: bool, now: i64)
    : Result<Channel, TapError>
  {
    if ch.status != Active then Err(ChannelNotActive)
    else if CommitmentError(ch, addr, c).Some? then Err(CommitmentError(ch, addr, c).value)
    else if !signed then Err(InvalidCommitmentSignature)
    else if now > ch.expiresAt then Err(ChannelExpired)
    else Ok(ch.(lastSequence := c.sequence, lastCumulativePaid := c.cumulativePaid,
                settledAt := now, status := Settling))
  }

  function DisputeChannel(ch: Channel, addr: Pubkey, c: WireMessage, signed: bool, now: i64)
    : Result<Channel, TapError>
  {
    if ch.status != Settling then Err(ChannelNotSettling)
    else if now > DisputeUntil(ch) then Err(DisputeWindowElapsed)
    else if CommitmentError(ch, addr, c).Some? then Err(CommitmentError(ch, addr, c).value)
    else if !signed then Err(InvalidCommitmentSignature)
    else Ok(ch.(lastSequence := c.sequence, lastCumulativePaid := c.cumulativePaid))
  }

  function CloseTimeError(ch: Channel, now: i64): Option<TapError> {
    match ch.status
    case Settling => if now > DisputeUntil(ch) then None else Some(DisputeWindowOpen)
    case Active => if now > ch.expiresAt then None else Some(ChannelNotSettling)
    case Closed => Some(ChannelNotSettling)
  }

  function Paid(ch: Channel): nat { Max(ch.lastCumulativePaid, ch.prepaidInputMicro) }

  // u64 saturating_sub
  function Refund(ch: Channel): nat { Max(0, ch.depositMicro - Paid(ch)) }

  // ------------------------------------------------------------ token moves

  /** SPL transfer out of a vault; the handler skips it when the amount is zero. */
  function PayFromVault(v: Vault, wallets: map<Pubkey, TokenAccount>, to: Pubkey, amount: nat)
    : (r: Result<(Vault, map<Pubkey, TokenAccount>), TapError>)
    requires to in wallets
    ensures r.Ok? ==> r.value.1.Keys == wallets.Keys
    ensures r.Ok? ==> forall k :: k in wallets ==>
              r.value.1[k].owner == wallets[k].owner && r.value.1[k].mint == wallets[k].mint
  {
    if amount == 0 then Ok((v, wallets))
    else if v.amount < amount then Err(InsufficientFunds)
    else if v.mint != wallets[to].mint then Err(MintMismatch)
    else Ok((v.(amount := v.amount - amount), Credit(wallets, to, amount)))
  }

  function Credit(wallets: map<Pubkey, TokenAccount>, to: Pubkey, amount: nat): map<Pubkey, TokenAccount>
    requires to in wallets
  {
    wallets[to := wallets[to].(amount := wallets[to].amount + amount)]
  }

  // ----------------------------------------------------------- instructions

  function OpenError(w: Ledger, a: OpenArgs): Option<TapError> {
    if a.channel in w.channels || a.channel in w.vaults || a.consumerUsdc !in w.wallets
       || w.wallets[a.consumerUsdc].owner != a.consumer || w.wallets[a.consumerUsdc].mint != a.mint
    then Some(AccountConstraint)
    else if a.depositMicro == 0 then Some(DepositZero)
    else if a.inputPriceMicro == 0 then Some(InputPriceZero)
    else if a.outputPriceMicro == 0 then Some(OutputPriceZero)
    else if a.prepaidInputMicro > a.depositMicro then Some(PrepaidInputExceedsDeposit)
    else if a.durationSecs > MAX_CHANNEL_DURATION_SECS then Some(DurationTooLong)
    else if a.disputeSecs > MAX_DISPUTE_WINDOW_SECS then Some(DisputeWindowTooLong)
    else if a.trailingBuffer > MAX_TRAILING_BUFFER_TOKENS then Some(TrailingBufferTooLarge)
    else if w.wallets[a.consumerUsdc].amount < a.depositMicro then Some(InsufficientFunds)
    else None
  }

  function NewChannel(a: OpenArgs, now: i64): Channel {
    Channel(a.bump, a.vaultBump, a.nonce, a.consumer, a.producer, a.sessionKey, a.depositMicro,
            a.inputPriceMicro, a.outputPriceMicro, a.prepaidInputMicro,
            SaturatingMul(a.trailingBuffer, a.outputPriceMicro), 0, 0,
            SaturatingAdd(now, a.durationSecs), 0, a.disputeSecs, Active)
  }

  function ExecOpen(w: Ledger, a: OpenArgs): Result<Ledger, TapError> {
    match OpenError(w, a)
    case Some(e) => Err(e)
    case None =>
      var payer := w.wallets[a.consumerUsdc];
      Ok(w.(channels := w.channels[a.channel := NewChannel(a, w.now)],
            vaults := w.vaults[a.channel := Vault(a.mint, a.depositMicro)],
            wallets := w.wallets[a.consumerUsdc := payer.(amount := payer.amount - a.depositMicro)]))
  }

  function Updated(w: Ledger, addr: Pubkey, r: Result<Channel, TapError>): Result<Ledger, TapError> {
    match r
    case Err(e) => Err(e)
    case Ok(ch) => Ok(w.(channels := w.channels[addr := ch]))
  }

  /** Both payments and the vault's closure; closing a vault that still holds tokens
      is an error. */
  function SplitVault(v: Vault, wallets: map<Pubkey, TokenAccount>, ch: Channel,
                      producerUsdc: Pubkey, consumerUsdc: Pubkey)
    : Result<map<Pubkey, TokenAccount>, TapError>
    requires producerUsdc in wallets && consumerUsdc in wallets
  {
    match PayFromVault(v, wallets, producerUsdc, Paid(ch))
    case Err(e) => Err(e)
    case Ok((v1, ws1)) =>
      match PayFromVault(v1, ws1, consumerUsdc, Refund(ch))
      case Err(e) => Err(e)
      case Ok((v2, ws2)) => if v2.amount != 0 then Err(VaultNotEmpty) else Ok(ws2)
  }

  function ExecClose(w: Ledger, addr: Pubkey, producerUsdc: Pubkey, consumerUsdc: Pubkey)
    : Result<Ledger, TapError>
  {
    if addr !in w.channels || addr !in w.vaults || producerUsdc !in w.wallets || consumerUsdc !in w.wallets
       || w.wallets[producerUsdc].owner != w.channels[addr].producer
       || w.wallets[consumerUsdc].owner != w.channels[addr].consumer
    then Err(AccountConstraint)
    else
      var ch := w.channels[addr];
      match CloseTimeError(ch, w.now)
      case Some(e) => Err(e)
      case None =>
        match SplitVault(w.vaults[addr], w.wallets, ch, producerUsdc, consumerUsdc)
        case Err(e) => Err(e)
        case Ok(ws) => Ok(w.(channels := w.channels - {addr}, vaults := w.vaults - {addr}, wallets := ws))
  }

  /** The meaning of one instruction; an `Err` leaves the ledger as it was. */
  function Execute(w: Ledger, ix: Ix): Result<Ledger, TapError> {
    match ix
    case Open(a) => ExecOpen(w, a)
    case Settle(addr, c, sig, tx) =>
      if addr !in w.channels then Err(AccountConstraint)
      else Updated(w, addr, SettleChannel(w.channels[addr], addr, c, Signed(w.channels[addr], c, sig, tx), w.now))
    case Dispute(addr, c, sig, tx) =>
      if addr !in w.channels then Err(AccountConstraint)
      else Updated(w, addr, DisputeChannel(w.channels[addr], addr, c, Signed(w.channels[addr], c, sig, tx), w.now))
    case Close(addr, producerUsdc, consumerUsdc) => ExecClose(w, addr, producerUsdc, consumerUsdc)
  }

  // ---------------------------------------------------------- the handlers

  /** What an instruction must do to the ledger, and report. */
  ghost predicate Performs(before: Ledger, ix: Ix, after: Ledger, error: Option<TapError>) {
    match Execute(before, ix)
    case Ok(w) => after == w && error == None
    case Err(e) => after == before && error == Some(e)
  }

  class Program {
    var channels: map<Pubkey, Channel>
    var vaults: map<Pubkey, Vault>
    var wallets: map<Pubkey, TokenAccount>
    var now: i64

    function View(): Ledger
      reads this
    {
      Ledger(channels, vaults, wallets, now)
    }

    constructor (wallets: map<Pubkey, TokenAccount>, now: i64)
      ensures View() == Ledger(map[], map[], wallets, now)
    {
      this.channels, this.vaults, this.wallets, this.now := map[], map[], wallets, now;
    }

    method OpenChannel(a: OpenArgs) returns (error: Option<TapError>)
      modifies this
      ensures Performs(old(View()), Open(a), View(), error)
    {
      if a.channel in channels || a.channel in vaults || a.consumerUsdc !in wallets {
        return Some(AccountConstraint);
      }
      var payer := wallets[a.consumerUsdc];
      if payer.owner != a.consumer || payer.mint != a.mint { return Some(AccountConstraint); }
      if !(a.depositMicro > 0) { return Some(DepositZero); }
      if !(a.inputPriceMicro > 0) { return Some(InputPriceZero); }
      if !(a.outputPriceMicro > 0) { return Some(OutputPriceZero); }
      if !(a.prepaidInputMicro <= a.depositMicro) { return Some(PrepaidInputExceedsDeposit); }
      if !(a.durationSecs <= MAX_CHANNEL_DURATION_SECS) { return Some(DurationTooLong); }
      if !(a.disputeSecs <= MAX_DISPUTE_WINDOW_SECS) { return Some(DisputeWindowTooLong); }
      if !(a.trailingBuffer <= MAX_TRAILING_BUFFER_TOKENS) { return Some(TrailingBufferTooLarge); }
      if payer.amount < a.depositMicro { return Some(InsufficientFunds); }

      wallets := wallets[a.consumerUsdc := payer.(amount := payer.amount - a.depositMicro)];
      vaults := vaults[a.channel := Vault(a.mint, a.depositMicro)];
      channels := channels[a.channel := NewChannel(a, now)];
      return None;
    }

    method SettleIx(addr: Pubkey, c: WireMessage, sig: Signature, tx: Transaction)
      returns (error: Option<TapError>)
      modifies this`channels
      ensures Performs(old(View()), Settle(addr, c, sig, tx), View(), error)
    {
      if addr !in channels { return Some(AccountConstraint); }
      var ch := channels[addr];
      if ch.status != Active { return Some(ChannelNotActive); }
      if c.channel != addr { return Some(CommitmentChannelMismatch); }
      if !(c.sequence > ch.lastSequence) { return Some(CommitmentSequenceStale); }
      if !(c.cumulativePaid >= ch.lastCumulativePaid) { return Some(CommitmentNonMonotonic); }
      if !(c.cumulativePaid >= ch.prepaidInputMicro) { return Some(CommitmentBelowPrepaidInput); }
      if !(c.cumulativePaid <= ch.depositMicro) { return Some(CommitmentExceedsDeposit); }
      var signed := VerifyEd25519Sibling(tx, ch.sessionKey, MessageBytes(c), sig);
      if !signed { return Some(InvalidCommitmentSignature); }
      if !(now <= ch.expiresAt) { return Some(ChannelExpired); }
      channels := channels[addr := ch.(lastSequence := c.sequence, lastCumulativePaid := c.cumulativePaid,
                                       settledAt := now, status := Settling)];
      return None;
    }

    method DisputeIx(addr: Pubkey, c: WireMessage, sig: Signature, tx: Transaction)
      returns (error: Option<TapError>)
      modifies this`channels
      ensures Performs(old(View()), Dispute(addr, c, sig, tx), View(), error)
    {
      if addr !in channels { return Some(AccountConstraint); }
      var ch := channels[addr];
      if ch.status != Settling { return Some(ChannelNotSettling); }
      var disputeUntil := SaturatingAdd(ch.settledAt, ch.disputeSecs);
      if !(now <= disputeUntil) { return Some(DisputeWindowElapsed); }
      if c.channel != addr { return Some(CommitmentChannelMismatch); }
      if !(c.sequence > ch.lastSequence) { return Some(CommitmentSequenceStale); }
      if !(c.cumulativePaid >= ch.lastCumulativePaid) { return Some(CommitmentNonMonotonic); }
      if !(c.cumulativePaid >= ch.prepaidInputMicro) { return Some(CommitmentBelowPrepaidInput); }
      if !(c.cumulativePaid <= ch.depositMicro) { return Some(CommitmentExceedsDeposit); }
      var signed := VerifyEd25519Sibling(tx, ch.sessionKey, MessageBytes(c), sig);
      if !signed { return Some(InvalidCommitmentSignature); }
      channels := channels[addr := ch.(lastSequence := c.sequence, lastCumulativePaid := c.cumulativePaid)];
      return None;
    }

    method CloseIx(addr: Pubkey, producerUsdc: Pubkey, consumerUsdc: Pubkey)
      returns (error: Option<TapError>)
      modifies this
      ensures Performs(old(View()), Close(addr, producerUsdc, consumerUsdc), View(), error)
    {
      if addr !in channels || addr !in vaults || producerUsdc !in wallets || consumerUsdc !in wallets {
        return Some(AccountConstraint);
      }
      var ch := channels[addr];
      if wallets[producerUsdc].owner != ch.producer || wallets[consumerUsdc].owner != ch.consumer {
        return Some(AccountConstraint);
      }
      match ch.status {
        case Settling =>
          var disputeUntil := SaturatingAdd(ch.settledAt, ch.disputeSecs);
          if !(now > disputeUntil) { return Some(DisputeWindowOpen); }
        case Active =>
          if !(now > ch.expiresAt) { return Some(ChannelNotSettling); }
        case Closed => return Some(ChannelNotSettling);
      }
      var split := PayOut(vaults[addr], wallets, ch, producerUsdc, consumerUsdc);
      if split.Err? { return Some(split.error); }
      wallets := split.value;
      vaults := vaults - {addr};
      channels := channels - {addr};
      return None;
    }
  }

  /** The transfers of `close`, on copies: they commit together or not at all. */
  method PayOut(v: Vault, wallets: map<Pubkey, TokenAccount>, ch: Channel,
                producerUsdc: Pubkey, consumerUsdc: Pubkey)
    returns (r: Result<map<Pubkey, TokenAccount>, TapError>)
    requires producerUsdc in wallets && consumerUsdc in wallets
    ensures r == SplitVault(v, wallets, ch, producerUsdc, consumerUsdc)
  {
    var paid := Max(ch.lastCumulativePaid, ch.prepaidInputMicro);
    var refund := Max(0, ch.depositMicro - paid);
    var vault, purse := v, wallets;
    if paid > 0 {
      if vault.amount < paid { return Err(InsufficientFunds); }
      if vault.mint != purse[producerUsdc].mint { return Err(MintMismatch); }
      vault := vault.(amount := vault.amount - paid);
      purse := Credit(purse, producerUsdc, paid);
    }
    if refund > 0 {
      if vault.amount < refund { return Err(InsufficientFunds); }
      if vault.mint != purse[consumerUsdc].mint { return Err(MintMismatch); }
      vault := vault.(amount := vault.amount - refund);
      purse := Credit(purse, consumerUsdc, refund);
    }
    if vault.amount != 0 { return Err(VaultNotEmpty); }
    return Ok(purse);
  }
}
