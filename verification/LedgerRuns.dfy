/** Whole runs of the program: any interleaving of instructions on any number of
    channels, with the clock moving forward between them. */
module LedgerRuns {
  import opened Types
  import opened Commitment
  import opened Ed25519
  import opened ChannelState
  import opened TapProgram

  /** Any instruction of the program, time, or tokens sent to a vault from outside. */
  datatype Step = Exec(ix: Ix) | Wait(secs: nat) | Donate(from: Pubkey, to: Pubkey, amount: nat)

  function Apply(w: Ledger, s: Step): Ledger {
    match s
    case Wait(secs) => w.(now := Min(w.now + secs, I64_MAX))
    case Exec(ix) => (match Execute(w, ix) case Ok(w') => w' case Err(_) => w)
    case Donate(from, to, amount) => Donated(w, from, to, amount)
  }

  // An SPL transfer into a vault; nothing happens without a vault, the mint or the funds.
  function Donated(w: Ledger, from: Pubkey, to: Pubkey, amount: nat): Ledger {
    if from !in w.wallets || to !in w.vaults || w.wallets[from].mint != w.vaults[to].mint
       || w.wallets[from].amount < amount
    then w
    else w.(wallets := w.wallets[from := w.wallets[from].(amount := w.wallets[from].amount - amount)],
            vaults := w.vaults[to := w.vaults[to].(amount := w.vaults[to].amount + amount)])
  }

  function Run(w: Ledger, steps: seq<Step>): Ledger
    decreases |steps|
  {
    if steps == [] then w else Run(Apply(w, steps[0]), steps[1..])
  }

  /** The channel an instruction names. */
  function Target(ix: Ix): Pubkey {
    match ix
    case Open(a) => a.channel
    case Settle(addr, _, _, _) => addr
    case Dispute(addr, _, _, _) => addr
    case Close(addr, _, _) => addr
  }

  // -------------------------------------------------------------- invariant

  predicate ChannelOk(ch: Channel) {
    && 0 < ch.depositMicro
    && ch.prepaidInputMicro <= ch.depositMicro
    && (ch.status == Active ==> ch.lastSequence == 0 && ch.lastCumulativePaid == 0)
    && (ch.status == Settling ==>
          && 1 <= ch.lastSequence
          && ch.prepaidInputMicro <= ch.lastCumulativePaid <= ch.depositMicro
          && ch.settledAt <= ch.expiresAt)
    && ch.status != Closed
  }

  predicate LedgerOk(w: Ledger) {
    && w.channels.Keys == w.vaults.Keys
    && forall addr :: addr in w.channels ==>
         ChannelOk(w.channels[addr]) && w.channels[addr].depositMicro <= w.vaults[addr].amount
  }

  /** What `close` pays the producer, by status. */
  function Payout(ch: Channel): nat {
    if ch.status == Settling then ch.lastCumulativePaid else ch.prepaidInputMicro
  }

  // ----------------------------------------------------------------- supply

  ghost function Total(m: map<Pubkey, nat>): nat {
    if m == map[] then 0 else var k :| k in m; m[k] + Total(m - {k})
  }

  // Which key is taken out first does not matter.
  lemma {:induction false} TotalSplit(m: map<Pubkey, nat>, k: Pubkey)
    requires k in m
    ensures Total(m) == m[k] + Total(m - {k})
    decreases |m|
  {
    var j :| j in m && Total(m) == m[j] + Total(m - {j});
    if j != k {
      TotalSplit(m - {j}, k);
      TotalSplit(m - {k}, j);
      assert m - {j} - {k} == m - {k} - {j};
    }
  }

  lemma TotalUpdate(m: map<Pubkey, nat>, k: Pubkey, v: nat)
    ensures Total(m[k := v]) == Total(m) + v - (if k in m then m[k] else 0)
  {
    TotalSplit(m[k := v], k);
    assert m[k := v] - {k} == m - {k};
    if k in m { TotalSplit(m, k); } else { assert m - {k} == m; }
  }

  function HeldInWallets(ws: map<Pubkey, TokenAccount>, mint: Pubkey): map<Pubkey, nat> {
    map k | k in ws :: if ws[k].mint == mint then ws[k].amount else 0
  }

  function HeldInVaults(vs: map<Pubkey, Vault>, mint: Pubkey): map<Pubkey, nat> {
    map k | k in vs :: if vs[k].mint == mint then vs[k].amount else 0
  }

  /** All tokens of one mint, over every wallet and every vault. */
  ghost function Supply(w: Ledger, mint: Pubkey): nat {
    Total(HeldInWallets(w.wallets, mint)) + Total(HeldInVaults(w.vaults, mint))
  }

  lemma WalletUpdate(ws: map<Pubkey, TokenAccount>, mint: Pubkey, k: Pubkey, a: TokenAccount)
    requires k in ws && a.mint == ws[k].mint
    ensures Total(HeldInWallets(ws[k := a], mint))
         == Total(HeldInWallets(ws, mint)) + (if a.mint == mint then a.amount - ws[k].amount else 0)
  {
    var held := HeldInWallets(ws, mint);
    var v := if a.mint == mint then a.amount else 0;
    assert HeldInWallets(ws[k := a], mint) == held[k := v];
    TotalUpdate(held, k, v);
  }

  lemma VaultAdded(vs: map<Pubkey, Vault>, mint: Pubkey, k: Pubkey, v: Vault)
    requires k !in vs
    ensures Total(HeldInVaults(vs[k := v], mint))
         == Total(HeldInVaults(vs, mint)) + (if v.mint == mint then v.amount else 0)
  {
    var held := HeldInVaults(vs, mint);
    var n := if v.mint == mint then v.amount else 0;
    assert HeldInVaults(vs[k := v], mint) == held[k := n];
    TotalUpdate(held, k, n);
  }

  lemma VaultRemoved(vs: map<Pubkey, Vault>, mint: Pubkey, k: Pubkey)
    requires k in vs
    ensures Total(HeldInVaults(vs, mint))
         == Total(HeldInVaults(vs - {k}, mint)) + (if vs[k].mint == mint then vs[k].amount else 0)
  {
    assert vs == (vs - {k})[k := vs[k]];
    VaultAdded(vs - {k}, mint, k, vs[k]);
  }

  lemma VaultUpdated(vs: map<Pubkey, Vault>, mint: Pubkey, k: Pubkey, v: Vault)
    requires k in vs && v.mint == vs[k].mint
    ensures Total(HeldInVaults(vs[k := v], mint))
         == Total(HeldInVaults(vs, mint)) + (if v.mint == mint then v.amount - vs[k].amount else 0)
  {
    VaultRemoved(vs, mint, k);
    VaultRemoved(vs[k := v], mint, k);
    assert vs[k := v] - {k} == vs - {k};
  }

  lemma DonationConserves(w: Ledger, from: Pubkey, to: Pubkey, amount: nat, mint: Pubkey)
    ensures Supply(Donated(w, from, to, amount), mint) == Supply(w, mint)
  {
    var w' := Donated(w, from, to, amount);
    if w' != w {
      var giver, vault := w.wallets[from], w.vaults[to];
      var giver', vault' := giver.(amount := giver.amount - amount), vault.(amount := vault.amount + amount);
      assert w'.wallets == w.wallets[from := giver'] && w'.vaults == w.vaults[to := vault'];
      hide Donated, HeldInWallets, HeldInVaults, Total;
      WalletUpdate(w.wallets, mint, from, giver');
      VaultUpdated(w.vaults, mint, to, vault');
    }
  }

  lemma PaymentMovesTokens(v: Vault, ws: map<Pubkey, TokenAccount>, to: Pubkey, amount: nat, mint: Pubkey)
    requires to in ws && PayFromVault(v, ws, to, amount).Ok?
    ensures var (v', ws') := PayFromVault(v, ws, to, amount).value;
            && v'.mint == v.mint && v'.amount == v.amount - amount
            && Total(HeldInWallets(ws', mint))
               == Total(HeldInWallets(ws, mint)) + (if v.mint == mint then amount else 0)
  {
    if amount > 0 {
      WalletUpdate(ws, mint, to, ws[to].(amount := ws[to].amount + amount));
    }
  }

  lemma OpenConserves(w: Ledger, a: OpenArgs, mint: Pubkey)
    requires ExecOpen(w, a).Ok?
    ensures Supply(ExecOpen(w, a).value, mint) == Supply(w, mint)
  {
    var payer := w.wallets[a.consumerUsdc];
    var debited := payer.(amount := payer.amount - a.depositMicro);
    var w' := ExecOpen(w, a).value;
    assert w'.wallets == w.wallets[a.consumerUsdc := debited];
    assert w'.vaults == w.vaults[a.channel := Vault(a.mint, a.depositMicro)];
    WalletUpdate(w.wallets, mint, a.consumerUsdc, debited);
    VaultAdded(w.vaults, mint, a.channel, Vault(a.mint, a.depositMicro));
  }

  lemma CloseConserves(w: Ledger, addr: Pubkey, producerUsdc: Pubkey, consumerUsdc: Pubkey, mint: Pubkey)
    requires ExecClose(w, addr, producerUsdc, consumerUsdc).Ok?
    ensures Supply(ExecClose(w, addr, producerUsdc, consumerUsdc).value, mint) == Supply(w, mint)
  {
    var ch := w.channels[addr];
    PaymentMovesTokens(w.vaults[addr], w.wallets, producerUsdc, Paid(ch), mint);
    var (v1, ws1) := PayFromVault(w.vaults[addr], w.wallets, producerUsdc, Paid(ch)).value;
    PaymentMovesTokens(v1, ws1, consumerUsdc, Refund(ch), mint);
    VaultRemoved(w.vaults, mint, addr);
  }

  lemma StepConserves(w: Ledger, s: Step, mint: Pubkey)
    ensures Supply(Apply(w, s), mint) == Supply(w, mint)
  {
    if s.Exec? && Execute(w, s.ix).Ok? {
      match s.ix
      case Open(a) => OpenConserves(w, a, mint);
      case Close(addr, p, c) => CloseConserves(w, addr, p, c, mint);
      case _ =>
    }
    if s.Donate? { DonationConserves(w, s.from, s.to, s.amount, mint); }
  }

  // ------------------------------------------------------- safety over runs

  /** No record and no vault other than `addr`'s differs between the two ledgers. */
  predicate OthersUntouched(w: Ledger, w': Ledger, addr: Pubkey) {
    && w.channels - {addr} == w'.channels - {addr}
    && w.vaults - {addr} == w'.vaults - {addr}
  }

  lemma RecordReplaced(w: Ledger, w': Ledger, addr: Pubkey)
    requires LedgerOk(w) && OthersUntouched(w, w', addr) && w'.channels.Keys == w'.vaults.Keys
    requires addr in w'.channels ==>
               ChannelOk(w'.channels[addr]) && w'.channels[addr].depositMicro <= w'.vaults[addr].amount
    ensures LedgerOk(w')
  {
    forall k | k in w'.channels
      ensures ChannelOk(w'.channels[k]) && w'.channels[k].depositMicro <= w'.vaults[k].amount
    {
      if k != addr {
        assert k in w'.channels - {addr} && k in w'.vaults - {addr};
        assert w'.channels[k] == (w.channels - {addr})[k] && w'.vaults[k] == (w.vaults - {addr})[k];
      }
    }
  }

  lemma CommitIsSafe(w: Ledger, addr: Pubkey, r: Result<Channel, TapError>)
    requires LedgerOk(w) && addr in w.channels && Updated(w, addr, r).Ok?
    requires ChannelOk(r.value) && r.value.depositMicro == w.channels[addr].depositMicro
    ensures OthersUntouched(w, Updated(w, addr, r).value, addr) && LedgerOk(Updated(w, addr, r).value)
  {
    var w' := Updated(w, addr, r).value;
    assert w'.channels - {addr} == w.channels - {addr};
    assert w'.channels.Keys == w.channels.Keys;
    RecordReplaced(w, w', addr);
  }

  lemma OpenIsSafe(w: Ledger, a: OpenArgs)
    requires LedgerOk(w) && ExecOpen(w, a).Ok?
    ensures OthersUntouched(w, ExecOpen(w, a).value, a.channel) && LedgerOk(ExecOpen(w, a).value)
  {
    var w' := ExecOpen(w, a).value;
    assert w'.channels - {a.channel} == w.channels - {a.channel};
    assert w'.vaults - {a.channel} == w.vaults - {a.channel};
    assert w'.channels.Keys == w.channels.Keys + {a.channel} == w'.vaults.Keys;
    RecordReplaced(w, w', a.channel);
  }

  lemma CloseIsSafe(w: Ledger, addr: Pubkey, producerUsdc: Pubkey, consumerUsdc: Pubkey)
    requires LedgerOk(w) && ExecClose(w, addr, producerUsdc, consumerUsdc).Ok?
    ensures var w' := ExecClose(w, addr, producerUsdc, consumerUsdc).value;
            OthersUntouched(w, w', addr) && LedgerOk(w') && w'.channels == w.channels - {addr}
  {
    var w' := ExecClose(w, addr, producerUsdc, consumerUsdc).value;
    assert w'.channels == w.channels - {addr} && w'.vaults == w.vaults - {addr};
    assert w'.channels.Keys == w.channels.Keys - {addr} == w'.vaults.Keys;
    RecordReplaced(w, w', addr);
  }

  lemma ExecIsSafe(w: Ledger, ix: Ix)
    requires LedgerOk(w) && Execute(w, ix).Ok?
    ensures LedgerOk(Execute(w, ix).value) && OthersUntouched(w, Execute(w, ix).value, Target(ix))
  {
    match ix
    case Open(a) => OpenIsSafe(w, a);
    case Settle(addr, c, sig, tx) =>
      CommitIsSafe(w, addr, SettleChannel(w.channels[addr], addr, c, Signed(w.channels[addr], c, sig, tx), w.now));
    case Dispute(addr, c, sig, tx) =>
      CommitIsSafe(w, addr, DisputeChannel(w.channels[addr], addr, c, Signed(w.channels[addr], c, sig, tx), w.now));
    case Close(addr, p, c) => CloseIsSafe(w, addr, p, c);
  }

  /** One step keeps the invariant, and changes neither the record nor the vault of
      any channel but the one it names. */
  lemma StepIsSafe(w: Ledger, s: Step)
    requires LedgerOk(w)
    ensures LedgerOk(Apply(w, s))
    ensures s.Exec? ==> OthersUntouched(w, Apply(w, s), Target(s.ix))
    ensures s.Donate? ==> OthersUntouched(w, Apply(w, s), s.to) && Apply(w, s).channels == w.channels
    ensures s.Wait? ==> Apply(w, s) == w.(now := Apply(w, s).now)
  {
    if s.Exec? && Execute(w, s.ix).Ok? {
      ExecIsSafe(w, s.ix);
    }
    if s.Donate? { DonationIsSafe(w, s.from, s.to, s.amount); }
  }

  lemma DonationIsSafe(w: Ledger, from: Pubkey, to: Pubkey, amount: nat)
    requires LedgerOk(w)
    ensures var w' := Donated(w, from, to, amount);
            LedgerOk(w') && OthersUntouched(w, w', to) && w'.channels == w.channels
  {
    var w' := Donated(w, from, to, amount);
    if w' != w {
      assert w'.vaults - {to} == w.vaults - {to} && w'.vaults.Keys == w.vaults.Keys;
      RecordReplaced(w, w', to);
    }
  }

  /** Conservation and solvency over every run: the supply of every mint is constant,
      and every channel still open has at least its whole deposit in its own vault. */
  lemma {:induction false} RunsAreSafe(w: Ledger, steps: seq<Step>, mint: Pubkey)
    requires LedgerOk(w)
    ensures LedgerOk(Run(w, steps))
    ensures Supply(Run(w, steps), mint) == Supply(w, mint)
    decreases |steps|
  {
    if steps != [] {
      StepIsSafe(w, steps[0]);
      StepConserves(w, steps[0], mint);
      RunsAreSafe(Apply(w, steps[0]), steps[1..], mint);
    }
  }

  lemma RunKeepsLedger(w: Ledger, steps: seq<Step>)
    requires LedgerOk(w)
    ensures LedgerOk(Run(w, steps))
  {
    RunsAreSafe(w, steps, seq(32, _ => 0));
  }

  predicate NoDonation(steps: seq<Step>, addr: Pubkey) {
    forall i :: 0 <= i < |steps| ==> !(steps[i].Donate? && steps[i].to == addr)
  }

  /** A vault that is exactly full stays so until somebody sends tokens to it. */
  predicate ExactlyFull(w: Ledger, addr: Pubkey) {
    addr in w.channels && addr in w.vaults ==> w.vaults[addr].amount == w.channels[addr].depositMicro
  }

  lemma StepKeepsExact(w: Ledger, s: Step, addr: Pubkey)
    requires LedgerOk(w) && ExactlyFull(w, addr) && !(s.Donate? && s.to == addr)
    ensures ExactlyFull(Apply(w, s), addr)
  {
    StepIsSafe(w, s);
    var w' := Apply(w, s);
    if addr in w'.channels && s.Exec? && Execute(w, s.ix).Ok? {
      var t := Target(s.ix);
      if t != addr {
        assert (w'.channels - {t})[addr] == (w.channels - {t})[addr];
        assert (w'.vaults - {t})[addr] == (w.vaults - {t})[addr];
      } else if s.ix.Close? {
        CloseIsSafe(w, addr, s.ix.producerUsdc, s.ix.consumerUsdc);
      }
    }
  }

  lemma {:induction false} OnlyDonationsOverfill(w: Ledger, steps: seq<Step>, addr: Pubkey)
    requires LedgerOk(w) && ExactlyFull(w, addr) && NoDonation(steps, addr)
    ensures ExactlyFull(Run(w, steps), addr)
    decreases |steps|
  {
    if steps != [] {
      assert !(steps[0].Donate? && steps[0].to == addr);
      StepKeepsExact(w, steps[0], addr);
      StepIsSafe(w, steps[0]);
      OnlyDonationsOverfill(Apply(w, steps[0]), steps[1..], addr);
    }
  }

  // --------------------------------------------------------------- payout

  /** The payees `close` insists on: token accounts of the recorded producer and consumer,
      of the vault's mint where there is something to pay. */
  predicate CloseAccountsInOrder(w: Ledger, addr: Pubkey, producerUsdc: Pubkey, consumerUsdc: Pubkey) {
    && addr in w.channels && addr in w.vaults
    && producerUsdc in w.wallets && w.wallets[producerUsdc].owner == w.channels[addr].producer
    && consumerUsdc in w.wallets && w.wallets[consumerUsdc].owner == w.channels[addr].consumer
    && MintsFit(w.vaults[addr], w.wallets, w.channels[addr], producerUsdc, consumerUsdc)
  }

  predicate MintsFit(v: Vault, ws: map<Pubkey, TokenAccount>, ch: Channel, producerUsdc: Pubkey, consumerUsdc: Pubkey)
    requires producerUsdc in ws && consumerUsdc in ws
  {
    && (Payout(ch) > 0 ==> ws[producerUsdc].mint == v.mint)
    && (Payout(ch) < ch.depositMicro ==> ws[consumerUsdc].mint == v.mint)
  }

  /** In every reachable ledger, and for any accounts anybody names, `close` succeeds exactly
      when those belong to the recorded parties, its time guard holds and the vault holds
      exactly the deposit: tokens sent there from outside block it. It pays the prepaid
      floor from Active and the recorded amount from Settling, refunds the rest of the
      deposit without saturating, and removes channel and vault. */
  lemma CloseSplitsDeposit(w: Ledger, addr: Pubkey, producerUsdc: Pubkey, consumerUsdc: Pubkey)
    requires LedgerOk(w)
    ensures var r := Execute(w, Close(addr, producerUsdc, consumerUsdc));
            r.Ok? <==>
              && CloseAccountsInOrder(w, addr, producerUsdc, consumerUsdc)
              && CloseTimeError(w.channels[addr], w.now).None?
              && w.vaults[addr].amount == w.channels[addr].depositMicro
    ensures CloseAccountsInOrder(w, addr, producerUsdc, consumerUsdc) ==>
              var r := Execute(w, Close(addr, producerUsdc, consumerUsdc));
              CloseTimeError(w.channels[addr], w.now).None? && r.Err? ==> r.error == VaultNotEmpty
    ensures var r := Execute(w, Close(addr, producerUsdc, consumerUsdc));
            r.Ok? ==>
              var ch := w.channels[addr];
              && Payout(ch) <= ch.depositMicro
              && r.value.now == w.now
              && r.value.channels == w.channels - {addr}
              && r.value.vaults == w.vaults - {addr}
              && r.value.wallets == Credit(Credit(w.wallets, producerUsdc, Payout(ch)),
                                           consumerUsdc, ch.depositMicro - Payout(ch))
  {
    if addr in w.channels && producerUsdc in w.wallets && consumerUsdc in w.wallets {
      VaultSplits(w.vaults[addr], w.wallets, w.channels[addr], producerUsdc, consumerUsdc);
    }
    hide SplitVault, Credit, MintsFit, CloseTimeError, ChannelOk, Payout;
  }

  lemma VaultSplits(v: Vault, ws: map<Pubkey, TokenAccount>, ch: Channel, producerUsdc: Pubkey, consumerUsdc: Pubkey)
    requires ChannelOk(ch) && ch.depositMicro <= v.amount
    requires producerUsdc in ws && consumerUsdc in ws
    ensures Payout(ch) <= ch.depositMicro
    ensures var r := SplitVault(v, ws, ch, producerUsdc, consumerUsdc);
            && (r.Ok? <==> MintsFit(v, ws, ch, producerUsdc, consumerUsdc) && v.amount == ch.depositMicro)
            && (MintsFit(v, ws, ch, producerUsdc, consumerUsdc) && r.Err? ==> r.error == VaultNotEmpty)
            && (r.Ok? ==>
                  r.value == Credit(Credit(ws, producerUsdc, Payout(ch)), consumerUsdc, ch.depositMicro - Payout(ch)))
  {
    assert Paid(ch) == Payout(ch) && Refund(ch) == ch.depositMicro - Payout(ch);
    var ws1 := Credit(ws, producerUsdc, Payout(ch));
    assert Payout(ch) == 0 ==> ws1 == ws;
    assert Refund(ch) == 0 ==> Credit(ws1, consumerUsdc, 0) == ws1;
    assert ws1[consumerUsdc].mint == ws[consumerUsdc].mint;
  }

  // ---------------------------------------------- what acceptance means

  /** `open_channel` is accepted exactly on sound, funded terms at an unused address, and the
      record then holds the argument's terms, each in its own place. */
  lemma OpenRecordsTerms(w: Ledger, a: OpenArgs)
    ensures Execute(w, Open(a)).Ok? <==>
              && a.channel !in w.channels && a.channel !in w.vaults
              && a.consumerUsdc in w.wallets
              && w.wallets[a.consumerUsdc].owner == a.consumer && w.wallets[a.consumerUsdc].mint == a.mint
              && 0 < a.depositMicro <= w.wallets[a.consumerUsdc].amount
              && 0 < a.inputPriceMicro && 0 < a.outputPriceMicro && a.prepaidInputMicro <= a.depositMicro
              && a.durationSecs <= 30 * 24 * 3600 && a.disputeSecs <= 600 && a.trailingBuffer <= 64
    ensures Execute(w, Open(a)).Ok? ==>
              var w' := Execute(w, Open(a)).value;
              && a.channel in w'.channels && a.channel in w'.vaults && a.consumerUsdc in w'.wallets
              && w'.vaults[a.channel] == Vault(a.mint, a.depositMicro)
              && w'.wallets[a.consumerUsdc].amount == w.wallets[a.consumerUsdc].amount - a.depositMicro
              && Records(w'.channels[a.channel], a, w.now)
  {
  }

  /** A fresh record of those terms. */
  predicate Records(ch: Channel, a: OpenArgs, now: i64) {
    && ch.consumer == a.consumer && ch.producer == a.producer && ch.sessionKey == a.sessionKey
    && ch.bump == a.bump && ch.vaultBump == a.vaultBump && ch.nonce == a.nonce
    && ch.depositMicro == a.depositMicro && ch.prepaidInputMicro == a.prepaidInputMicro
    && ch.inputPriceMicro == a.inputPriceMicro && ch.outputPriceMicro == a.outputPriceMicro
    && ch.trailingBufferMicro == Min(a.trailingBuffer * a.outputPriceMicro, U64_MAX)
    && ch.expiresAt == Min(now + a.durationSecs, I64_MAX) && ch.disputeSecs == a.disputeSecs
    && ch.status == Active && ch.lastSequence == 0 && ch.lastCumulativePaid == 0 && ch.settledAt == 0
  }

  /** What a commitment must meet on a channel, whoever submits it. */
  predicate Meets(ch: Channel, addr: Pubkey, c: WireMessage) {
    && c.channel == addr && ch.lastSequence < c.sequence
    && ch.lastCumulativePaid <= c.cumulativePaid
    && ch.prepaidInputMicro <= c.cumulativePaid <= ch.depositMicro
  }

  /** `settle` and `dispute` are accepted exactly in their windows, on a commitment that meets
      the terms and was found signed. A settlement starts the dispute window now; a dispute
      leaves its start, and everything but sequence and amount, alone. */
  lemma CommitAcceptedIff(w: Ledger, addr: Pubkey, c: WireMessage, sig: Signature, tx: Transaction)
    ensures var r := Execute(w, Settle(addr, c, sig, tx));
            && (r.Ok? <==>
                  (&& addr in w.channels
                   && w.channels[addr].status == Active && w.now <= w.channels[addr].expiresAt
                   && Meets(w.channels[addr], addr, c) && Signed(w.channels[addr], c, sig, tx)))
            && (r.Ok? ==>
                  (&& addr in r.value.channels
                   && r.value.channels[addr] == w.channels[addr].(status := Settling, settledAt := w.now,
                        lastSequence := c.sequence, lastCumulativePaid := c.cumulativePaid)))
    ensures var r := Execute(w, Dispute(addr, c, sig, tx));
            && (r.Ok? <==>
                  (&& addr in w.channels && w.channels[addr].status == Settling
                   && w.now <= Min(w.channels[addr].settledAt + w.channels[addr].disputeSecs, I64_MAX)
                   && Meets(w.channels[addr], addr, c) && Signed(w.channels[addr], c, sig, tx)))
            && (r.Ok? ==>
                  (&& addr in r.value.channels
                   && r.value.channels[addr] == w.channels[addr].(
                        lastSequence := c.sequence, lastCumulativePaid := c.cumulativePaid)))
  {
    hide Signed;
  }

  /** Each instruction reports the first of its guards that fails, in this order. */
  lemma RefusalsInOrder(w: Ledger, addr: Pubkey, c: WireMessage, sig: Signature, tx: Transaction)
    requires addr in w.channels
    ensures var ch := w.channels[addr];
            ErrorOf(Execute(w, Settle(addr, c, sig, tx)))
            == Unless(ch.status == Active, ChannelNotActive,
               Unless(c.channel == addr, CommitmentChannelMismatch,
               Unless(c.sequence > ch.lastSequence, CommitmentSequenceStale,
               Unless(c.cumulativePaid >= ch.lastCumulativePaid, CommitmentNonMonotonic,
               Unless(c.cumulativePaid >= ch.prepaidInputMicro, CommitmentBelowPrepaidInput,
               Unless(c.cumulativePaid <= ch.depositMicro, CommitmentExceedsDeposit,
               Unless(Signed(ch, c, sig, tx), InvalidCommitmentSignature,
               Unless(w.now <= ch.expiresAt, ChannelExpired, None))))))))
    ensures var ch := w.channels[addr];
            ErrorOf(Execute(w, Dispute(addr, c, sig, tx)))
            == Unless(ch.status == Settling, ChannelNotSettling,
               Unless(w.now <= Min(ch.settledAt + ch.disputeSecs, I64_MAX), DisputeWindowElapsed,
               Unless(c.channel == addr, CommitmentChannelMismatch,
               Unless(c.sequence > ch.lastSequence, CommitmentSequenceStale,
               Unless(c.cumulativePaid >= ch.lastCumulativePaid, CommitmentNonMonotonic,
               Unless(c.cumulativePaid >= ch.prepaidInputMicro, CommitmentBelowPrepaidInput,
               Unless(c.cumulativePaid <= ch.depositMicro, CommitmentExceedsDeposit,
               Unless(Signed(ch, c, sig, tx), InvalidCommitmentSignature, None))))))))
  {
    hide Signed;
  }

  lemma OpenRefusalsInOrder(w: Ledger, a: OpenArgs)
    requires a.channel !in w.channels && a.channel !in w.vaults && a.consumerUsdc in w.wallets
    requires w.wallets[a.consumerUsdc].owner == a.consumer && w.wallets[a.consumerUsdc].mint == a.mint
    ensures ErrorOf(Execute(w, Open(a)))
         == Unless(a.depositMicro > 0, DepositZero,
            Unless(a.inputPriceMicro > 0, InputPriceZero,
            Unless(a.outputPriceMicro > 0, OutputPriceZero,
            Unless(a.prepaidInputMicro <= a.depositMicro, PrepaidInputExceedsDeposit,
            Unless(a.durationSecs <= 30 * 24 * 3600, DurationTooLong,
            Unless(a.disputeSecs <= 600, DisputeWindowTooLong,
            Unless(a.trailingBuffer <= 64, TrailingBufferTooLarge,
            Unless(a.depositMicro <= w.wallets[a.consumerUsdc].amount, InsufficientFunds, None))))))))
  {
  }

  // ------------------------------------------------------- one incarnation

  /** No step opens `addr`: the run stays within one life of the channel. */
  predicate NoReopen(steps: seq<Step>, addr: Pubkey) {
    forall i :: 0 <= i < |steps| ==> !(steps[i].Exec? && steps[i].ix.Open? && steps[i].ix.args.channel == addr)
  }

  predicate SameTerms(a: Channel, b: Channel) {
    b == a.(status := b.status, settledAt := b.settledAt,
            lastSequence := b.lastSequence, lastCumulativePaid := b.lastCumulativePaid)
  }

  /** How a channel may evolve: terms fixed, sequence and payout only ever up, and
      equal sequences mean an untouched record. */
  predicate Later(before: Channel, after: Channel) {
    && SameTerms(before, after)
    && before.lastSequence <= after.lastSequence
    && Payout(before) <= Payout(after)
    && (before.lastSequence == after.lastSequence ==> before == after)
  }

  lemma ExecEvolves(w: Ledger, ix: Ix, addr: Pubkey)
    requires LedgerOk(w) && Execute(w, ix).Ok? && Target(ix) == addr && !ix.Open?
    requires addr in Execute(w, ix).value.channels
    ensures addr in w.channels && Later(w.channels[addr], Execute(w, ix).value.channels[addr])
    ensures w.channels[addr].lastSequence < Execute(w, ix).value.channels[addr].lastSequence
    ensures !ix.Close? && Execute(w, ix).value.channels[addr].lastSequence == ix.commitment.sequence
    ensures Execute(w, ix).value.now == w.now
  {
    match ix
    case Settle(_, c, sig, tx) =>
      var signed := Signed(w.channels[addr], c, sig, tx);
      assert Execute(w, ix) == Updated(w, addr, SettleChannel(w.channels[addr], addr, c, signed, w.now));
    case Dispute(_, c, sig, tx) =>
      var signed := Signed(w.channels[addr], c, sig, tx);
      assert Execute(w, ix) == Updated(w, addr, DisputeChannel(w.channels[addr], addr, c, signed, w.now));
    case Close(_, p, c) => CloseIsSafe(w, addr, p, c);
  }

  /** An accepted commitment was found signed, and its numbers are what is recorded. */
  lemma AcceptedMeansRecorded(w: Ledger, ix: Ix)
    requires (ix.Settle? || ix.Dispute?) && Execute(w, ix).Ok?
    ensures ix.channel in w.channels && ix.channel in Execute(w, ix).value.channels
    ensures Signed(w.channels[ix.channel], ix.commitment, ix.signature, ix.tx)
    ensures var ch := Execute(w, ix).value.channels[ix.channel];
            ch.lastSequence == ix.commitment.sequence && ch.lastCumulativePaid == ix.commitment.cumulativePaid
  {
  }

  lemma ExecKeepsClock(w: Ledger, ix: Ix)
    requires Execute(w, ix).Ok?
    ensures Execute(w, ix).value.now == w.now
  {
  }

  lemma StepEvolves(w: Ledger, s: Step, addr: Pubkey)
    requires LedgerOk(w) && NoReopen([s], addr)
    ensures LedgerOk(Apply(w, s)) && w.now <= Apply(w, s).now
    ensures addr in Apply(w, s).channels ==>
              addr in w.channels && Later(w.channels[addr], Apply(w, s).channels[addr])
  {
    StepIsSafe(w, s);
    assert !([s][0].Exec? && [s][0].ix.Open? && [s][0].ix.args.channel == addr);
    if s.Exec? && Execute(w, s.ix).Ok? {
      ExecKeepsClock(w, s.ix);
      if addr in Apply(w, s).channels {
        if Target(s.ix) == addr {
          ExecEvolves(w, s.ix, addr);
        } else {
          var t := Target(s.ix);
          assert (Apply(w, s).channels - {t})[addr] == (w.channels - {t})[addr];
        }
      }
    }
  }

  lemma {:induction false} RunEvolves(w: Ledger, steps: seq<Step>, addr: Pubkey)
    requires LedgerOk(w) && NoReopen(steps, addr)
    ensures addr in Run(w, steps).channels ==>
              addr in w.channels && Later(w.channels[addr], Run(w, steps).channels[addr])
    ensures LedgerOk(Run(w, steps)) && w.now <= Run(w, steps).now
    decreases |steps|
  {
    if steps != [] {
      assert NoReopen([steps[0]], addr);
      StepEvolves(w, steps[0], addr);
      RunEvolves(Apply(w, steps[0]), steps[1..], addr);
    }
  }

  /** From open to close: whoever closes a channel in its life, the payout goes to a wallet
      of the producer it was opened for and the refund to one of its consumer. */
  lemma {:induction false} PayeesAreThoseOfOpen(
      w: Ledger, a: OpenArgs, steps: seq<Step>, producerUsdc: Pubkey, consumerUsdc: Pubkey)
    requires LedgerOk(w) && Execute(w, Open(a)).Ok? && NoReopen(steps, a.channel)
    requires var w' := Run(Execute(w, Open(a)).value, steps);
             Execute(w', Close(a.channel, producerUsdc, consumerUsdc)).Ok?
    ensures var w' := Run(Execute(w, Open(a)).value, steps);
            && a.channel in w'.channels && producerUsdc in w'.wallets && consumerUsdc in w'.wallets
            && w'.wallets[producerUsdc].owner == a.producer
            && w'.wallets[consumerUsdc].owner == a.consumer
            && var paid := Payout(w'.channels[a.channel]);
               a.prepaidInputMicro <= paid <= a.depositMicro
               && Execute(w', Close(a.channel, producerUsdc, consumerUsdc)).value.wallets
                  == Credit(Credit(w'.wallets, producerUsdc, paid), consumerUsdc, a.depositMicro - paid)
  {
    hide Credit, Execute;
    var start := Execute(w, Open(a)).value;
    StepIsSafe(w, Exec(Open(a)));
    OpenRecordsTerms(w, a);
    RunEvolves(start, steps, a.channel);
    CloseSplitsDeposit(Run(start, steps), a.channel, producerUsdc, consumerUsdc);
  }

  lemma StepKeepsWindow(w: Ledger, s: Step, addr: Pubkey)
    requires LedgerOk(w) && NoReopen([s], addr) && addr in w.channels && w.channels[addr].status == Settling
    requires addr in Apply(w, s).channels
    ensures Apply(w, s).channels[addr].status == Settling
    ensures Apply(w, s).channels[addr].settledAt == w.channels[addr].settledAt
  {
    assert !([s][0].Exec? && [s][0].ix.Open? && [s][0].ix.args.channel == addr);
    if s.Exec? && Execute(w, s.ix).Ok? && Target(s.ix) == addr {
      match s.ix
      case Dispute(_, c, sig, tx) => CommitAcceptedIff(w, addr, c, sig, tx);
      case Settle(_, c, sig, tx) => CommitAcceptedIff(w, addr, c, sig, tx);
      case Close(_, p, c) => CloseIsSafe(w, addr, p, c);
    } else {
      RecordKept(w, s, addr);
    }
  }

  /** The dispute window, once started, is never moved: no number of disputes prolongs it. */
  lemma {:induction false} WindowNeverMoves(w: Ledger, steps: seq<Step>, addr: Pubkey)
    requires LedgerOk(w) && NoReopen(steps, addr) && addr in w.channels && w.channels[addr].status == Settling
    ensures addr in Run(w, steps).channels ==>
              && Run(w, steps).channels[addr].status == Settling
              && Run(w, steps).channels[addr].settledAt == w.channels[addr].settledAt
    decreases |steps|
  {
    if steps != [] {
      assert NoReopen([steps[0]], addr);
      StepEvolves(w, steps[0], addr);
      if addr in Apply(w, steps[0]).channels {
        StepKeepsWindow(w, steps[0], addr);
        WindowNeverMoves(Apply(w, steps[0]), steps[1..], addr);
      } else {
        RunEvolves(Apply(w, steps[0]), steps[1..], addr);
      }
    }
  }

  // ------------------------------------------------------------- liveness

  predicate SettleInTime(ch: Channel, now: i64) { ch.status == Active && now <= ch.expiresAt }

  predicate DisputeInTime(ch: Channel, now: i64) { ch.status == Settling && now <= DisputeUntil(ch) }

  /** The program accepts an instruction only inside its own window. */
  lemma AcceptedOnlyInItsWindow(w: Ledger, ix: Ix)
    requires Execute(w, ix).Ok? && !ix.Open?
    ensures Target(ix) in w.channels
    ensures var ch := w.channels[Target(ix)];
            && (ix.Settle? ==> SettleInTime(ch, w.now))
            && (ix.Dispute? ==> DisputeInTime(ch, w.now))
            && (ix.Close? ==> CloseTimeError(ch, w.now).None?)
  {
  }

  /** The window an instruction belongs to is open. */
  predicate InWindowOf(ix: Ix, ch: Channel, now: i64) {
    match ix
    case Open(_) => false
    case Settle(_, _, _, _) => SettleInTime(ch, now)
    case Dispute(_, _, _, _) => DisputeInTime(ch, now)
    case Close(_, _, _) => CloseTimeError(ch, now).None?
  }

  /** At every instant of every run an open channel is in exactly one of three windows, to
      settle, to dispute, to close, and all the program accepts on it is the instruction of
      that window. */
  lemma {:induction false} OneWindowAtATime(w: Ledger, steps: seq<Step>, addr: Pubkey)
    requires LedgerOk(w) && addr in Run(w, steps).channels
    ensures var ch, now := Run(w, steps).channels[addr], Run(w, steps).now;
            && (SettleInTime(ch, now) || DisputeInTime(ch, now) || CloseTimeError(ch, now).None?)
            && !(SettleInTime(ch, now) && DisputeInTime(ch, now))
            && !(SettleInTime(ch, now) && CloseTimeError(ch, now).None?)
            && !(DisputeInTime(ch, now) && CloseTimeError(ch, now).None?)
            && forall ix :: Target(ix) == addr && Execute(Run(w, steps), ix).Ok? ==> InWindowOf(ix, ch, now)
  {
    RunKeepsLedger(w, steps);
    var w' := Run(w, steps);
    forall ix | Target(ix) == addr && Execute(w', ix).Ok?
      ensures InWindowOf(ix, w'.channels[addr], w'.now)
    {
      if !ix.Open? { AcceptedOnlyInItsWindow(w', ix); }
    }
  }

  /** Finality: once a channel may be closed its record is frozen, and it stays closable
      until it is closed. */
  lemma {:induction false} FinalOnceClosable(w: Ledger, steps: seq<Step>, addr: Pubkey)
    requires LedgerOk(w) && addr in w.channels && NoReopen(steps, addr)
    requires CloseTimeError(w.channels[addr], w.now).None?
    ensures var w' := Run(w, steps);
            addr in w'.channels ==>
              w'.channels[addr] == w.channels[addr] && CloseTimeError(w.channels[addr], w'.now).None?
    decreases |steps|
  {
    if steps != [] {
      var s, w' := steps[0], Apply(w, steps[0]);
      assert NoReopen([s], addr);
      StepEvolves(w, s, addr);
      if s.Exec? && Execute(w, s.ix).Ok? && Target(s.ix) == addr {
        OnlyCloseIsLeft(w, s.ix);
      }
      if addr !in w'.channels {
        RunEvolves(w', steps[1..], addr);
      } else {
        RecordKept(w, s, addr);
        FinalOnceClosable(w', steps[1..], addr);
      }
    }
  }

  lemma OnlyCloseIsLeft(w: Ledger, ix: Ix)
    requires LedgerOk(w) && Execute(w, ix).Ok? && Target(ix) in w.channels
    requires CloseTimeError(w.channels[Target(ix)], w.now).None?
    ensures Target(ix) !in Execute(w, ix).value.channels
  {
    if !ix.Open? { AcceptedOnlyInItsWindow(w, ix); }
    if ix.Close? { CloseIsSafe(w, ix.channel, ix.producerUsdc, ix.consumerUsdc); }
  }

  lemma RecordKept(w: Ledger, s: Step, addr: Pubkey)
    requires LedgerOk(w) && addr in w.channels && addr in Apply(w, s).channels
    requires s.Exec? && Execute(w, s.ix).Ok? ==> Target(s.ix) != addr
    ensures Apply(w, s).channels[addr] == w.channels[addr]
  {
    if s.Exec? && Execute(w, s.ix).Ok? {
      ExecIsSafe(w, s.ix);
      var t := Target(s.ix);
      assert (Apply(w, s).channels - {t})[addr] == (w.channels - {t})[addr];
    }
  }

  /** A channel opened at `w.now` passes close's time guard at any moment after
      duration + dispute window, whatever anyone did meanwhile; that deadline is at
      most 30 days and 600 seconds away. */
  lemma AlwaysClosableAfterDeadline(w: Ledger, a: OpenArgs, steps: seq<Step>)
    requires LedgerOk(w) && Execute(w, Open(a)).Ok? && NoReopen(steps, a.channel)
    requires a.channel in Run(Execute(w, Open(a)).value, steps).channels
    requires w.now + a.durationSecs + a.disputeSecs < Run(Execute(w, Open(a)).value, steps).now
    ensures var w' := Run(Execute(w, Open(a)).value, steps);
            CloseTimeError(w'.channels[a.channel], w'.now).None?
    ensures a.durationSecs + a.disputeSecs <= 30 * 24 * 3600 + 600
  {
    var start := Execute(w, Open(a)).value;
    StepIsSafe(w, Exec(Open(a)));
    RunEvolves(start, steps, a.channel);
  }

  // The last second before `close` opens, on a clock without end.
  function Deadline(ch: Channel): int {
    if ch.status == Active then ch.expiresAt else ch.settledAt + ch.disputeSecs
  }

  /** The exception is the end of the i64 clock: at some representable time an open
      channel passes close's time guard if and only if its deadline lies before it. */
  lemma ClosableIffDeadlineBelowMax(ch: Channel)
    requires ch.status != Closed
    ensures (exists now: i64 :: CloseTimeError(ch, now).None?) <==> Deadline(ch) < I64_MAX
  {
    if Deadline(ch) < I64_MAX {
      assert CloseTimeError(ch, Deadline(ch) + 1).None?;
    }
  }

  /** So a channel is stuck for ever exactly when it was opened, or settled, so late that
      the clock ends before its duration, or its dispute window, does. */
  lemma StuckIffClockEnds(w: Ledger, a: OpenArgs, steps: seq<Step>)
    requires LedgerOk(w) && Execute(w, Open(a)).Ok? && NoReopen(steps, a.channel)
    requires a.channel in Run(Execute(w, Open(a)).value, steps).channels
    ensures var ch := Run(Execute(w, Open(a)).value, steps).channels[a.channel];
            (forall now: i64 :: CloseTimeError(ch, now).Some?)
            <==> (if ch.status == Active then w.now + a.durationSecs else ch.settledAt + a.disputeSecs) >= I64_MAX
  {
    var start := Execute(w, Open(a)).value;
    StepIsSafe(w, Exec(Open(a)));
    RunEvolves(start, steps, a.channel);
    RunKeepsLedger(start, steps);
    var ch := Run(start, steps).channels[a.channel];
    ClosableIffDeadlineBelowMax(ch);
  }

  // ----------------------------------------------- accepted instructions

  /** The instructions on `addr` that the program accepts, in order. */
  function Accepted(w: Ledger, steps: seq<Step>, addr: Pubkey): seq<Ix>
    decreases |steps|
  {
    if steps == [] then []
    else
      var here := if steps[0].Exec? && Target(steps[0].ix) == addr && Execute(w, steps[0].ix).Ok?
                  then [steps[0].ix] else [];
      here + Accepted(Apply(w, steps[0]), steps[1..], addr)
  }

  /** Distinct commitments submitted for `addr` with a sequence above `floor`. */
  function Submitted(steps: seq<Step>, addr: Pubkey, floor: int): set<WireMessage> {
    set s | s in steps && s.Exec? && (s.ix.Settle? || s.ix.Dispute?)
            && s.ix.channel == addr && s.ix.commitment.sequence > floor :: s.ix.commitment
  }

  lemma SubmittedMonotone(steps: seq<Step>, addr: Pubkey, lo: int, hi: int)
    requires steps != [] && lo <= hi
    ensures Submitted(steps[1..], addr, hi) <= Submitted(steps, addr, lo)
  {
    forall c | c in Submitted(steps[1..], addr, hi) ensures c in Submitted(steps, addr, lo) {
      var s :| s in steps[1..] && s.Exec? && (s.ix.Settle? || s.ix.Dispute?)
               && s.ix.channel == addr && s.ix.commitment.sequence > hi && s.ix.commitment == c;
      assert s in steps;
    }
  }

  lemma SubsetCard(a: set<WireMessage>, b: set<WireMessage>)
    requires a <= b
    ensures |a| <= |b|
  {
    assert b == a + (b - a);
  }

  lemma {:induction false} NothingAcceptedOnceGone(w: Ledger, steps: seq<Step>, addr: Pubkey)
    requires LedgerOk(w) && addr !in w.channels && NoReopen(steps, addr)
    ensures Accepted(w, steps, addr) == []
    decreases |steps|
  {
    if steps != [] {
      assert NoReopen([steps[0]], addr);
      StepEvolves(w, steps[0], addr);
      assert !(steps[0].Exec? && steps[0].ix.Open? && steps[0].ix.args.channel == addr);
      NothingAcceptedOnceGone(Apply(w, steps[0]), steps[1..], addr);
    }
  }

  /** One life of a channel accepts at most one instruction per distinct commitment
      above its recorded sequence, plus the close. */
  lemma {:induction false} AcceptedAreBounded(w: Ledger, steps: seq<Step>, addr: Pubkey)
    requires LedgerOk(w) && addr in w.channels && NoReopen(steps, addr)
    ensures |Accepted(w, steps, addr)| <= |Submitted(steps, addr, w.channels[addr].lastSequence)| + 1
    decreases |steps|
  {
    if steps != [] {
      var s, w' := steps[0], Apply(w, steps[0]);
      var floor := w.channels[addr].lastSequence;
      assert NoReopen([s], addr);
      assert !(steps[0].Exec? && steps[0].ix.Open? && steps[0].ix.args.channel == addr);
      StepEvolves(w, s, addr);
      StepIsSafe(w, s);
      if addr !in w'.channels {
        NothingAcceptedOnceGone(w', steps[1..], addr);
      } else {
        var floor' := w'.channels[addr].lastSequence;
        AcceptedAreBounded(w', steps[1..], addr);
        SubmittedMonotone(steps, addr, floor, floor');
        var all, rest := Submitted(steps, addr, floor), Submitted(steps[1..], addr, floor');
        SubsetCard(rest, all);
        if s.Exec? && Target(s.ix) == addr && Execute(w, s.ix).Ok? {
          ExecEvolves(w, s.ix, addr);
          var c := s.ix.commitment;
          assert s in steps && c in all && c !in rest;
          SubsetCard(rest, all - {c});
        }
      }
    }
  }
}
