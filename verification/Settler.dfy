/** The producer's settler: find the channels ready to close from raw account bytes, and
    submit `close` for each. */
module Settler {
  import opened Types
  import opened ChannelState
  import opened TapProgram
  import opened LedgerRuns

  const CLOCK_SLACK_SECS := 5

  datatype Pending = Pending(address: Pubkey, account: Channel)

  /** The RPC node's memcmp filter, on raw account bytes. */
  predicate Memcmp(data: Bytes, offset: nat, bytes: Bytes) {
    offset + |bytes| <= |data| && data[offset..offset + |bytes|] == bytes
  }

  predicate Filtered(data: Bytes, producer: Pubkey) {
    Memcmp(data, STATUS_OFFSET, [StatusTag(Settling)]) && Memcmp(data, PRODUCER_OFFSET, producer)
  }

  /** On every decodable account the byte filters say exactly what the fields say. */
  lemma {:induction false} FiltersReadTheFields(d: Discriminator, data: Bytes, producer: Pubkey)
    requires DecodeChannel(d, data).Some?
    ensures var ch := DecodeChannel(d, data).value;
            Filtered(data, producer) <==> ch.status == Settling && ch.producer == producer
  {
    assert data[190..191] == [data[190]];
  }

  predicate Due(ch: Channel, now: int) { now >= ch.settledAt + ch.disputeSecs + CLOCK_SLACK_SECS }

  /** What the scan must return, account by account. */
  function Ready(d: Discriminator, accounts: seq<(Pubkey, Bytes)>, producer: Pubkey, now: int): seq<Pending> {
    if accounts == [] then []
    else
      var (address, data) := accounts[|accounts| - 1];
      var init := Ready(d, accounts[..|accounts| - 1], producer, now);
      match DecodeChannel(d, data)
      case Some(ch) =>
        if ch.status == Settling && ch.producer == producer && Due(ch, now)
        then init + [Pending(address, ch)] else init
      case None => init
  }

  /** `_find_ready` over the accounts the node returns: filter, decode (skipping what does
      not decode), keep what is due. */
  method FindReady(d: Discriminator, accounts: seq<(Pubkey, Bytes)>, producer: Pubkey, now: int)
    returns (ready: seq<Pending>)
    ensures ready == Ready(d, accounts, producer, now)
  {
    ready := [];
    for i := 0 to |accounts|
      invariant ready == Ready(d, accounts[..i], producer, now)
    {
      assert accounts[..i + 1][..i] == accounts[..i];
      var (address, data) := accounts[i];
      if DecodeChannel(d, data).Some? {
        FiltersReadTheFields(d, data, producer);
      }
      if Filtered(data, producer) {
        var channel := DecodeChannelFrom(d, data);
        if channel.Some? {
          var disputeUntil := channel.value.settledAt + channel.value.disputeSecs;
          if now >= disputeUntil + CLOCK_SLACK_SECS {
            ready := ready + [Pending(address, channel.value)];
          }
        }
      }
    }
    assert accounts[..|accounts|] == accounts;
  }

  lemma {:induction false} ReadyAreDue(
      d: Discriminator, accounts: seq<(Pubkey, Bytes)>, producer: Pubkey, now: int, p: Pending)
    requires p in Ready(d, accounts, producer, now)
    ensures p.account.status == Settling && p.account.producer == producer && Due(p.account, now)
  {
    if accounts != [] {
      var init := accounts[..|accounts| - 1];
      if p in Ready(d, init, producer, now) { ReadyAreDue(d, init, producer, now, p); }
    }
  }

  /** What makes an account ready. */
  predicate IsReady(d: Discriminator, account: (Pubkey, Bytes), producer: Pubkey, now: int): (r: bool)
    ensures r ==> DecodeChannel(d, account.1).Some?
  {
    var channel := DecodeChannel(d, account.1);
    && channel.Some?
    && channel.value.status == Settling && channel.value.producer == producer
    && channel.value.settledAt + channel.value.disputeSecs + 5 <= now
  }

  function EntryOf(d: Discriminator, account: (Pubkey, Bytes)): Pending
    requires DecodeChannel(d, account.1).Some?
  {
    Pending(account.0, DecodeChannel(d, account.1).value)
  }

  /** `p` is the entry of some account that is ready. */
  ghost predicate FromReady(d: Discriminator, accounts: seq<(Pubkey, Bytes)>, producer: Pubkey, now: int, p: Pending) {
    exists i: nat :: i < |accounts| && IsReady(d, accounts[i], producer, now) && p == EntryOf(d, accounts[i])
  }

  lemma ReadyLast(d: Discriminator, init: seq<(Pubkey, Bytes)>, a: (Pubkey, Bytes), producer: Pubkey, now: int)
    ensures Ready(d, init + [a], producer, now)
         == Ready(d, init, producer, now) + (if IsReady(d, a, producer, now) then [EntryOf(d, a)] else [])
  {
    hide DecodeChannel;
    assert (init + [a])[..|init|] == init;
  }

  /** The result is complete and nothing else: a channel is in it if and only if it is the
      entry of a ready account. */
  lemma {:induction false} ReadyIsComplete(
      d: Discriminator, accounts: seq<(Pubkey, Bytes)>, producer: Pubkey, now: int, p: Pending)
    ensures p in Ready(d, accounts, producer, now) <==> FromReady(d, accounts, producer, now, p)
  {
    hide Ready, IsReady, DecodeChannel;
    if accounts == [] {
      NothingReady(d, producer, now);
    } else {
      var n := |accounts| - 1;
      var init, a := accounts[..n], accounts[n];
      assert init + [a] == accounts;
      ReadyIsComplete(d, init, producer, now, p);
      ReadyLast(d, init, a, producer, now);
      if FromReady(d, init, producer, now, p) {
        var i: nat :| i < |init| && IsReady(d, init[i], producer, now) && p == EntryOf(d, init[i]);
        assert accounts[i] == init[i];
      }
      if FromReady(d, accounts, producer, now, p) {
        var i: nat :| i < |accounts| && IsReady(d, accounts[i], producer, now) && p == EntryOf(d, accounts[i]);
        assert i < n ==> init[i] == accounts[i];
      }
    }
  }

  function ReadyIndices(d: Discriminator, accounts: seq<(Pubkey, Bytes)>, producer: Pubkey, now: int): set<nat> {
    set i: nat | i < |accounts| && IsReady(d, accounts[i], producer, now)
  }

  lemma IndicesLast(d: Discriminator, init: seq<(Pubkey, Bytes)>, a: (Pubkey, Bytes), producer: Pubkey, now: int)
    ensures |ReadyIndices(d, init + [a], producer, now)|
         == |ReadyIndices(d, init, producer, now)| + (if IsReady(d, a, producer, now) then 1 else 0)
  {
    hide IsReady;
    var n := |init|;
    var before, after := ReadyIndices(d, init, producer, now), ReadyIndices(d, init + [a], producer, now);
    forall i: nat | i < n ensures (init + [a])[i] == init[i] {}
    assert after == before + (if IsReady(d, a, producer, now) then {n} else {});
  }

  /** And each ready account is in it once. */
  lemma {:induction false} ReadyCounts(d: Discriminator, accounts: seq<(Pubkey, Bytes)>, producer: Pubkey, now: int)
    ensures |Ready(d, accounts, producer, now)| == |ReadyIndices(d, accounts, producer, now)|
  {
    if accounts == [] {
      assert ReadyIndices(d, accounts, producer, now) == {};
    } else {
      hide Ready, IsReady, ReadyIndices;
      var init, a := accounts[..|accounts| - 1], accounts[|accounts| - 1];
      assert init + [a] == accounts;
      ReadyCounts(d, init, producer, now);
      ReadyLast(d, init, a, producer, now);
      IndicesLast(d, init, a, producer, now);
    }
  }

  lemma NothingReady(d: Discriminator, producer: Pubkey, now: int)
    ensures Ready(d, [], producer, now) == []
  {
  }

  /** A channel the settler selects passes `close`'s time guard if the chain's clock lags
      the producer's by less than the slack. */
  lemma {:induction false} SelectedPassesTimeGuard(
      d: Discriminator, accounts: seq<(Pubkey, Bytes)>, producer: Pubkey, now: int, p: Pending, chainNow: i64)
    requires p in Ready(d, accounts, producer, now)
    requires now - chainNow < CLOCK_SLACK_SECS
    ensures CloseTimeError(p.account, chainNow) == None
  {
    ReadyAreDue(d, accounts, producer, now, p);
  }

  // ------------------------------------------------------------ closing pass

  /** What `pending` says is still what the ledger says, and its accounts are in order. */
  predicate Closable(w: Ledger, p: Pending, producerUsdc: Pubkey, ata: Pubkey -> Pubkey) {
    && p.address in w.channels && w.channels[p.address] == p.account
    && CloseAccountsInOrder(w, p.address, producerUsdc, ata(p.account.consumer))
    && CloseTimeError(p.account, w.now) == None
    && w.vaults[p.address].amount == p.account.depositMicro
  }

  // A close moves money but renames no wallet.
  predicate SameWallets(w: Ledger, w': Ledger) {
    && w.wallets.Keys == w'.wallets.Keys && w.now == w'.now
    && forall k :: k in w.wallets ==>
         w.wallets[k].owner == w'.wallets[k].owner && w.wallets[k].mint == w'.wallets[k].mint
  }

  lemma ClosingOthersKeeps(w: Ledger, addr: Pubkey, pUsdc: Pubkey, cUsdc: Pubkey, p: Pending,
                           producerUsdc: Pubkey, ata: Pubkey -> Pubkey)
    requires LedgerOk(w) && ExecClose(w, addr, pUsdc, cUsdc).Ok?
    ensures SameWallets(w, ExecClose(w, addr, pUsdc, cUsdc).value) && addr in w.channels
    ensures Closable(w, p, producerUsdc, ata) && p.address != addr ==>
              Closable(ExecClose(w, addr, pUsdc, cUsdc).value, p, producerUsdc, ata)
  {
    var w' := ExecClose(w, addr, pUsdc, cUsdc).value;
    assert w'.channels == w.channels - {addr} && w'.vaults == w.vaults - {addr};
  }

  // After `n` entries: of those that were closable, only later ones are still open, and
  // they are closable still.
  ghost predicate Progress(
      w0: Ledger, w: Ledger, pending: seq<Pending>, n: nat, producerUsdc: Pubkey, ata: Pubkey -> Pubkey)
  {
    && LedgerOk(w) && SameWallets(w0, w) && w.channels.Keys <= w0.channels.Keys
    && forall i :: 0 <= i < |pending| && Closable(w0, pending[i], producerUsdc, ata) && pending[i].address in w.channels
         ==> i >= n && Closable(w, pending[i], producerUsdc, ata)
  }

  lemma ProgressStart(w0: Ledger, pending: seq<Pending>, producerUsdc: Pubkey, ata: Pubkey -> Pubkey)
    requires LedgerOk(w0)
    ensures Progress(w0, w0, pending, 0, producerUsdc, ata)
  {
    hide LedgerOk, Closable;
  }

  lemma EntryClosed(w0: Ledger, w: Ledger, pending: seq<Pending>, n: nat, producerUsdc: Pubkey, ata: Pubkey -> Pubkey)
    requires n < |pending| && Progress(w0, w, pending, n, producerUsdc, ata)
    requires ExecClose(w, pending[n].address, producerUsdc, ata(pending[n].account.consumer)).Ok?
    ensures var w' := ExecClose(w, pending[n].address, producerUsdc, ata(pending[n].account.consumer)).value;
            && Progress(w0, w', pending, n + 1, producerUsdc, ata)
            && |w0.channels.Keys - w'.channels.Keys| == |w0.channels.Keys - w.channels.Keys| + 1
  {
    hide ExecClose, LedgerOk, Closable;
    var addr, consumerUsdc := pending[n].address, ata(pending[n].account.consumer);
    var w' := ExecClose(w, addr, producerUsdc, consumerUsdc).value;
    CloseIsSafe(w, addr, producerUsdc, consumerUsdc);
    ClosingOthersKeeps(w, addr, producerUsdc, consumerUsdc, pending[n], producerUsdc, ata);
    assert w'.channels.Keys == w.channels.Keys - {addr};
    assert w0.channels.Keys - w'.channels.Keys == (w0.channels.Keys - w.channels.Keys) + {addr};
    forall i | 0 <= i < |pending| && Closable(w0, pending[i], producerUsdc, ata) && pending[i].address in w'.channels
      ensures i >= n + 1 && Closable(w', pending[i], producerUsdc, ata)
    {
      ClosingOthersKeeps(w, addr, producerUsdc, consumerUsdc, pending[i], producerUsdc, ata);
    }
  }

  lemma {:induction false} EntryRefused(
      w0: Ledger, w: Ledger, pending: seq<Pending>, n: nat, producerUsdc: Pubkey, ata: Pubkey -> Pubkey)
    requires n < |pending| && Progress(w0, w, pending, n, producerUsdc, ata)
    requires ExecClose(w, pending[n].address, producerUsdc, ata(pending[n].account.consumer)).Err?
    ensures Progress(w0, w, pending, n + 1, producerUsdc, ata)
  {
    if Closable(w, pending[n], producerUsdc, ata) {
      CloseSplitsDeposit(w, pending[n].address, producerUsdc, ata(pending[n].account.consumer));
    }
  }

  /** `run_once`'s loop: every closable pending channel is closed by the end of the pass,
      whatever happens to the others; the result counts the closes. */
  method RunOnce(program: Program, pending: seq<Pending>, producerUsdc: Pubkey, ata: Pubkey -> Pubkey)
    returns (submitted: nat)
    requires LedgerOk(program.View())
    modifies program
    ensures LedgerOk(program.View()) && SameWallets(old(program.View()), program.View())
    ensures forall i :: 0 <= i < |pending| && Closable(old(program.View()), pending[i], producerUsdc, ata)
              ==> pending[i].address !in program.channels
    ensures program.channels.Keys <= old(program.channels.Keys)
    ensures submitted == |old(program.channels.Keys) - program.channels.Keys|
  {
    hide ExecClose, ExecOpen, SettleChannel, DisputeChannel, LedgerOk, Closable, SameWallets;
    submitted := 0;
    ghost var w0 := program.View();
    assert w0.channels.Keys - w0.channels.Keys == {};
    ProgressStart(w0, pending, producerUsdc, ata);
    for n := 0 to |pending|
      invariant Progress(w0, program.View(), pending, n, producerUsdc, ata)
      invariant submitted == |w0.channels.Keys - program.channels.Keys|
    {
      ghost var w := program.View();
      var entry := pending[n];
      var error := program.CloseIx(entry.address, producerUsdc, ata(entry.account.consumer));
      if error == None {
        submitted := submitted + 1;
        EntryClosed(w0, w, pending, n, producerUsdc, ata);
      } else {
        EntryRefused(w0, w, pending, n, producerUsdc, ata);
      }
    }
  }
}
