// What the ledger's operations do to balances, written out: who pays, who is paid, exactly when, and that
// a refusal moves nothing.

module LedgerLaws {
  import opened Basics
  import opened Ledger

  // A field of at most so many characters, on one line.
  predicate Line(text: string, limit: nat) {
    |text| <= limit && '\t' !in text && '\r' !in text && '\n' !in text
  }

  predicate Named(user: string) { user != "" && Line(user, 256) }

  // A reference that can be used, and has not been.
  ghost predicate Fresh(b: Book, reference: string) {
    && (forall e :: e in b.entries ==> e.reference != reference)
    && forall id :: id in b.escrows ==> b.escrows[id].reference != reference
  }

  lemma FieldMeans(text: string, limit: nat)
    ensures SafeField(text, limit, true) <==> Line(text, limit)
    ensures SafeField(text, limit, false) <==> text != "" && Line(text, limit)
  {
  }

  lemma FreshMeans(b: Book, reference: string)
    ensures Fresh(b, reference) <==> !ReferenceExists(b, reference)
  {
    if !ReferenceExists(b, reference) {
      forall e | e in b.entries ensures e.reference != reference {
        var i :| 0 <= i < |b.entries| && b.entries[i] == e;
      }
    }
  }

  // Nothing has moved: every balance, escrow and entry is as it was.
  ghost predicate Still(b: Book, c: Book) {
    (forall user :: Balance(c, user) == Balance(b, user)) && c.escrows == b.escrows && c.entries == b.entries
  }

  // One balance has changed by so much, and no other.
  ghost predicate OnlyOne(b: Book, c: Book, user: string, change: int) {
    Balance(c, user) == Balance(b, user) + change && forall other :: other != user ==> Balance(c, other) == Balance(b, other)
  }

  // A transfer lowers the sender's balance and raises the receiver's by the amount, and no other. It
  // succeeds exactly for two named accounts, a positive amount, a new reference, enough funds, and a
  // receiver whose balance stays within 64 bits.
  lemma TransferMeans(b: Book, from: string, to: string, amount: int64, reference: string, memo: string)
    ensures var o := Transferred(b, from, to, amount, reference, memo);
      && o.reason == (
           if !Named(from) || !Named(to) || from == to || amount <= 0 || reference == "" || !Line(reference, 128) ||
              !Line(memo, 512) then "invalid-transfer"
           else if !Fresh(b, reference) then "duplicate-reference"
           else if Balance(b, from) < amount then "insufficient-funds"
           else if Balance(b, to) + amount > 0x7fff_ffff_ffff_ffff then "balance-overflow" else "")
      && if o.reason != "" then Still(b, o.book)
         else
           && Balance(o.book, from) == Balance(b, from) - amount && Balance(o.book, to) == Balance(b, to) + amount
           && (forall user :: user != from && user != to ==> Balance(o.book, user) == Balance(b, user))
           && o.book.escrows == b.escrows
           && o.book.entries == b.entries + [Entry(Transfer, reference, from, to, amount, memo)]
  {
    TransferFields(b, from, to, reference, memo);
  }

  lemma TransferFields(b: Book, from: string, to: string, reference: string, memo: string)
    ensures SafeField(from, 256, false) <==> Named(from)
    ensures SafeField(to, 256, false) <==> Named(to)
    ensures SafeField(reference, 128, false) <==> reference != "" && Line(reference, 128)
    ensures SafeField(memo, 512, true) <==> Line(memo, 512)
    ensures ReferenceExists(b, reference) <==> !Fresh(b, reference)
  {
    FieldMeans(from, 256);
    FieldMeans(to, 256);
    FieldMeans(reference, 128);
    FieldMeans(memo, 512);
    FreshMeans(b, reference);
  }

  // Minting raises one balance, and burning lowers one.
  lemma MintMeans(b: Book, to: string, amount: int64, reference: string, memo: string)
    ensures var o := Minted(b, to, amount, reference, memo);
      && o.reason == (
           if !Named(to) || amount <= 0 || reference == "" || !Line(reference, 128) || !Line(memo, 512) then "invalid-mint"
           else if !Fresh(b, reference) then "duplicate-reference"
           else if Balance(b, to) + amount > 0x7fff_ffff_ffff_ffff then "balance-overflow" else "")
      && if o.reason != "" then Still(b, o.book)
         else
           && OnlyOne(b, o.book, to, amount) && o.book.escrows == b.escrows
           && o.book.entries == b.entries + [Entry(Mint, reference, "", to, amount, memo)]
  {
    TransferFields(b, to, to, reference, memo);
  }

  lemma BurnMeans(b: Book, from: string, amount: int64, reference: string, memo: string)
    ensures var o := Burned(b, from, amount, reference, memo);
      && o.reason == (
           if !Named(from) || amount <= 0 || reference == "" || !Line(reference, 128) || !Line(memo, 512) then "invalid-burn"
           else if !Fresh(b, reference) then "duplicate-reference"
           else if Balance(b, from) < amount then "insufficient-funds" else "")
      && if o.reason != "" then Still(b, o.book)
         else
           var less: int := -amount;
           && OnlyOne(b, o.book, from, less) && o.book.escrows == b.escrows
           && o.book.entries == b.entries + [Entry(Burn, reference, from, "", amount, memo)]
  {
    TransferFields(b, from, from, reference, memo);
  }

  // A reservation takes the amount from the buyer and opens an escrow over it; the seller is paid nothing.
  lemma ReserveMeans(b: Book, id: string, buyer: string, seller: string, amount: int64, reference: string)
    ensures var o := ReservedBy(b, id, buyer, seller, amount, reference);
      && o.reason == (
           if !Named(buyer) || !Named(seller) || buyer == seller || amount <= 0 || reference == "" || !Line(reference, 128) then
             "invalid-escrow"
           else if !Fresh(b, reference) then "duplicate-reference"
           else if Balance(b, seller) + amount > 0x7fff_ffff_ffff_ffff then "balance-overflow"
           else if Balance(b, buyer) < amount then "insufficient-funds" else "")
      && if o.reason != "" then Still(b, o.book)
         else
           var less: int := -amount;
           && OnlyOne(b, o.book, buyer, less)
           && o.book.escrows == b.escrows[id := Escrow(reference, buyer, seller, amount, Reserved)]
           && o.book.entries == b.entries + [Entry(Reserve, reference + ":reserve", buyer, "", amount, "escrow reserve")]
  {
    TransferFields(b, buyer, seller, reference, "");
  }

  // A commitment pays the seller what the escrow holds, once.
  lemma CommitMeans(b: Book, id: string)
    ensures var o := Settled(b, id, Committed);
      if id !in b.escrows then o == Outcome(b, "escrow-not-found")
      else
        var e := b.escrows[id];
        && (e.state != Reserved ==> o == Outcome(b, "escrow-not-reserved"))
        && (e.state == Reserved && e.amount > 0 && Balance(b, e.seller) + e.amount > 0x7fff_ffff_ffff_ffff ==>
              o.reason == "balance-overflow" && Still(b, o.book))
        && (e.state == Reserved && e.amount > 0 && Balance(b, e.seller) + e.amount <= 0x7fff_ffff_ffff_ffff ==>
              && o.reason == "" && OnlyOne(b, o.book, e.seller, e.amount)
              && o.book.escrows == b.escrows[id := Escrow(e.reference, e.buyer, e.seller, e.amount, Committed)]
              && o.book.entries == b.entries + [Entry(Commit, e.reference + ":commit", "", e.seller, e.amount, "escrow commit")])
  {
  }

  // A release pays it back to the buyer, once.
  lemma ReleaseMeans(b: Book, id: string)
    ensures var o := Settled(b, id, Released);
      if id !in b.escrows then o == Outcome(b, "escrow-not-found")
      else
        var e := b.escrows[id];
        && (e.state != Reserved ==> o == Outcome(b, "escrow-not-reserved"))
        && (e.state == Reserved && e.amount > 0 && Balance(b, e.buyer) + e.amount > 0x7fff_ffff_ffff_ffff ==>
              o.reason == "balance-overflow" && Still(b, o.book))
        && (e.state == Reserved && e.amount > 0 && Balance(b, e.buyer) + e.amount <= 0x7fff_ffff_ffff_ffff ==>
              && o.reason == "" && OnlyOne(b, o.book, e.buyer, e.amount)
              && o.book.escrows == b.escrows[id := Escrow(e.reference, e.buyer, e.seller, e.amount, Released)]
              && o.book.entries == b.entries + [Entry(Release, e.reference + ":release", "", e.buyer, e.amount, "escrow release")])
  {
  }

  // ---------- several operations ----------

  // A transfer there and back leaves every balance as it was.
  lemma ThereAndBack(b: Book, from: string, to: string, amount: int64, first: string, second: string, memo: string)
    requires Sound(b)
    requires var o := Transferred(b, from, to, amount, first, memo); o.reason == ""
    requires second != "" && Line(second, 128) && second != first && Fresh(b, second)
    ensures var o := Transferred(b, from, to, amount, first, memo);
      var p := Transferred(o.book, to, from, amount, second, memo);
      p.reason == "" && forall user :: Balance(p.book, user) == Balance(b, user)
  {
    var o := Transferred(b, from, to, amount, first, memo);
    TransferMeans(b, from, to, amount, first, memo);
    TransferMeans(o.book, to, from, amount, second, memo);
    BalanceBounded(b, from);
    BalanceBounded(b, to);
    assert Fresh(o.book, second);
  }

  lemma BalanceBounded(b: Book, user: string)
    requires Sound(b)
    ensures 0 <= Balance(b, user) <= 0x7fff_ffff_ffff_ffff
  {
  }

  // Over an escrow that is committed the seller gains what the buyer paid; over one that is released
  // no balance has changed in the end.
  lemma EscrowPays(b: Book, id: string, buyer: string, seller: string, amount: int64, reference: string)
    requires Sound(b) && id !in b.escrows && ReservedBy(b, id, buyer, seller, amount, reference).reason == ""
    ensures var c := ReservedBy(b, id, buyer, seller, amount, reference).book;
      var paid, back := Settled(c, id, Committed), Settled(c, id, Released);
      && paid.reason == "" && Balance(paid.book, buyer) == Balance(b, buyer) - amount
      && Balance(paid.book, seller) == Balance(b, seller) + amount
      && (forall user :: user != buyer && user != seller ==> Balance(paid.book, user) == Balance(b, user))
      && back.reason == "" && forall user :: Balance(back.book, user) == Balance(b, user)
  {
    var c := ReservedBy(b, id, buyer, seller, amount, reference).book;
    ReserveMeans(b, id, buyer, seller, amount, reference);
    BalanceBounded(b, buyer);
    CommitMeans(c, id);
    ReleaseMeans(c, id);
  }
}
