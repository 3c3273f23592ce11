// The economy ledger: accounts, escrows and the list of entries that explains every balance.

module Ledger {
  import opened Basics

  const MAX: int := 0x7fff_ffff_ffff_ffff

  type int64 = x: int | -MAX - 1 <= x <= MAX

  datatype EntryKind = Transfer | Mint | Burn | Reserve | Commit | Release

  // An empty user means that no account is debited or credited.
  datatype Entry = Entry(kind: EntryKind, reference: string, from: string, to: string, amount: int, memo: string)

  datatype EscrowState = Reserved | Committed | Released

  datatype Escrow = Escrow(reference: string, buyer: string, seller: string, amount: int, state: EscrowState)

  datatype Book = Book(accounts: map<string, int>, escrows: map<string, Escrow>, entries: seq<Entry>)

  // The book after an operation, and why it was refused; the empty reason is success.
  datatype Outcome = Outcome(book: Book, reason: string)

  predicate SafeField(text: string, limit: nat, empty: bool) {
    && (empty || text != "") && |text| <= limit
    && forall c :: c in text ==> c != '\t' && c != '\r' && c != '\n'
  }

  // ---------- operations on a book ----------

  function Balance(b: Book, user: string): int { if user in b.accounts then b.accounts[user] else 0 }

  function Ensured(b: Book, user: string): Book {
    if user in b.accounts then b else b.(accounts := b.accounts[user := 0])
  }

  predicate ReferenceExists(b: Book, reference: string) {
    || (exists i :: 0 <= i < |b.entries| && b.entries[i].reference == reference)
    || exists id :: id in b.escrows && b.escrows[id].reference == reference
  }

  predicate Overflows(current: int, amount: int) { amount > 0 && current > MAX - amount }

  function Debited(b: Book, user: string, amount: int): Book
    requires user in b.accounts
  {
    b.(accounts := b.accounts[user := b.accounts[user] - amount])
  }

  function Credited(b: Book, user: string, amount: int): Book
    requires user in b.accounts
  {
    b.(accounts := b.accounts[user := b.accounts[user] + amount])
  }

  function Recorded(b: Book, e: Entry): Book { b.(entries := b.entries + [e]) }

  function Transferred(b: Book, from: string, to: string, amount: int64, reference: string, memo: string): Outcome {
    if !SafeField(from, 256, false) || !SafeField(to, 256, false) || from == to || amount <= 0 ||
       !SafeField(reference, 128, false) || !SafeField(memo, 512, true) then Outcome(b, "invalid-transfer")
    else if ReferenceExists(b, reference) then Outcome(b, "duplicate-reference")
    else
      var c := Ensured(Ensured(b, from), to);
      if c.accounts[from] < amount then Outcome(c, "insufficient-funds")
      else if Overflows(c.accounts[to], amount) then Outcome(c, "balance-overflow")
      else
        Outcome(Recorded(Credited(Debited(c, from, amount), to, amount), Entry(Transfer, reference, from, to, amount, memo)), "")
  }

  function Minted(b: Book, to: string, amount: int64, reference: string, memo: string): Outcome {
    if !SafeField(to, 256, false) || amount <= 0 || !SafeField(reference, 128, false) || !SafeField(memo, 512, true) then
      Outcome(b, "invalid-mint")
    else if ReferenceExists(b, reference) then Outcome(b, "duplicate-reference")
    else
      var c := Ensured(b, to);
      if Overflows(c.accounts[to], amount) then Outcome(c, "balance-overflow")
      else Outcome(Recorded(Credited(c, to, amount), Entry(Mint, reference, "", to, amount, memo)), "")
  }

  function Burned(b: Book, from: string, amount: int64, reference: string, memo: string): Outcome {
    if !SafeField(from, 256, false) || amount <= 0 || !SafeField(reference, 128, false) || !SafeField(memo, 512, true) then
      Outcome(b, "invalid-burn")
    else if ReferenceExists(b, reference) then Outcome(b, "duplicate-reference")
    else
      var c := Ensured(b, from);
      if c.accounts[from] < amount then Outcome(c, "insufficient-funds")
      else Outcome(Recorded(Debited(c, from, amount), Entry(Burn, reference, from, "", amount, memo)), "")
  }

  function Opened(b: Book, id: string, e: Escrow): Book { b.(escrows := b.escrows[id := e]) }

  function ReservedBy(b: Book, id: string, buyer: string, seller: string, amount: int64, reference: string): Outcome {
    if !SafeField(buyer, 256, false) || !SafeField(seller, 256, false) || buyer == seller || amount <= 0 ||
       !SafeField(reference, 128, false) then Outcome(b, "invalid-escrow")
    else if ReferenceExists(b, reference) then Outcome(b, "duplicate-reference")
    else
      var c := Ensured(Ensured(b, buyer), seller);
      if Overflows(c.accounts[seller], amount) then Outcome(c, "balance-overflow")
      else if c.accounts[buyer] < amount then Outcome(c, "insufficient-funds")
      else
        Outcome(Recorded(Opened(Debited(c, buyer, amount), id, Escrow(reference, buyer, seller, amount, Reserved)),
                         Entry(Reserve, reference + ":reserve", buyer, "", amount, "escrow reserve")), "")
  }

  // Committing pays the seller, releasing pays the buyer back.
  function Settled(b: Book, id: string, state: EscrowState): Outcome {
    if id !in b.escrows then Outcome(b, "escrow-not-found")
    else
      var e := b.escrows[id];
      var payee := if state == Committed then e.seller else e.buyer;
      if e.state != Reserved then Outcome(b, "escrow-not-reserved")
      else
        var c := Ensured(b, payee);
        if Overflows(c.accounts[payee], e.amount) then Outcome(c, "balance-overflow")
        else
          var entry := if state == Committed
            then Entry(Commit, e.reference + ":commit", "", payee, e.amount, "escrow commit")
            else Entry(Release, e.reference + ":release", "", payee, e.amount, "escrow release");
          Outcome(Recorded(Opened(Credited(c, payee, e.amount), id, e.(state := state)), entry), "")
  }

  // ---------- what a book means ----------

  function Effect(e: Entry, user: string): int {
    (if e.to == user then e.amount else 0) - if e.from == user then e.amount else 0
  }

  // Credits minus debits of a user, by replaying the entries.
  function Replay(entries: seq<Entry>, user: string): int {
    if entries == [] then 0 else Replay(entries[..|entries| - 1], user) + Effect(entries[|entries| - 1], user)
  }

  function Issue(e: Entry): int { if e.kind == Mint then e.amount else if e.kind == Burn then -e.amount else 0 }

  // Everything minted, less everything burned.
  function Issued(entries: seq<Entry>): int {
    if entries == [] then 0 else Issued(entries[..|entries| - 1]) + Issue(entries[|entries| - 1])
  }

  function Held(e: Escrow): int { if e.state == Reserved then e.amount else 0 }

  function Holdings(escrows: map<string, Escrow>): map<string, int> { map id | id in escrows :: Held(escrows[id]) }

  // What users own and what escrows hold.
  ghost function Supply(b: Book): int { Sum(b.accounts) + Sum(Holdings(b.escrows)) }

  // ---------- the invariant ----------

  ghost predicate Bounded(b: Book) {
    && (forall user :: user in b.accounts ==> user != "" && 0 <= b.accounts[user] <= MAX)
    && forall id :: id in b.escrows ==>
         b.escrows[id].buyer != "" && b.escrows[id].seller != "" && 0 < b.escrows[id].amount <= MAX
  }

  ghost predicate Explained(b: Book) {
    forall user :: user != "" ==> Balance(b, user) == Replay(b.entries, user)
  }

  ghost predicate Conserved(b: Book) { Supply(b) == Issued(b.entries) }

  predicate ChosenByCaller(e: Entry) { e.kind == Transfer || e.kind == Mint || e.kind == Burn }

  // References callers chose are all different, over entries and escrows together.
  ghost predicate Distinct(b: Book) {
    && (forall i, j :: 0 <= i < j < |b.entries| && ChosenByCaller(b.entries[i]) && ChosenByCaller(b.entries[j]) ==>
         b.entries[i].reference != b.entries[j].reference)
    && (forall i, id :: 0 <= i < |b.entries| && ChosenByCaller(b.entries[i]) && id in b.escrows ==>
         b.entries[i].reference != b.escrows[id].reference)
    && forall id, other :: id in b.escrows && other in b.escrows && id != other ==>
         b.escrows[id].reference != b.escrows[other].reference
  }

  ghost predicate Sound(b: Book) { Bounded(b) && Explained(b) && Conserved(b) && Distinct(b) }

  // ---------- the parts of a change ----------

  lemma EnsuredKeeps(b: Book, user: string)
    requires Sound(b) && user != ""
    ensures Sound(Ensured(b, user)) && Supply(Ensured(b, user)) == Supply(b)
  {
    SumUpdate(b.accounts, user, 0);
  }

  lemma RecordedMeans(b: Book, e: Entry, user: string)
    ensures Replay(Recorded(b, e).entries, user) == Replay(b.entries, user) + Effect(e, user)
    ensures Issued(Recorded(b, e).entries) == Issued(b.entries) + Issue(e)
  {
    var all := b.entries + [e];
    assert all[..|all| - 1] == b.entries;
  }

  lemma CreditedMeans(b: Book, user: string, amount: int)
    requires user in b.accounts
    ensures Supply(Credited(b, user, amount)) == Supply(b) + amount
    ensures Supply(Debited(b, user, amount)) == Supply(b) - amount
  {
    SumUpdate(b.accounts, user, b.accounts[user] + amount);
    SumUpdate(b.accounts, user, b.accounts[user] - amount);
  }

  lemma OpenedMeans(b: Book, id: string, e: Escrow)
    ensures Supply(Opened(b, id, e)) == Supply(b) + Held(e) - if id in b.escrows then Held(b.escrows[id]) else 0
  {
    assert Holdings(b.escrows[id := e]) == Holdings(b.escrows)[id := Held(e)];
    SumUpdate(Holdings(b.escrows), id, Held(e));
  }

  // The entry explains the change: balances change by its effect, the supply by what it issues.
  ghost predicate Balances(b: Book, c: Book, e: Entry) {
    && (forall user :: user != "" ==> Balance(c, user) == Balance(b, user) + Effect(e, user))
    && Supply(c) == Supply(b) + Issue(e) && c.entries == b.entries
  }

  lemma PostingKeeps(b: Book, c: Book, e: Entry)
    requires Explained(b) && Conserved(b) && Balances(b, c, e)
    ensures Explained(Recorded(c, e)) && Conserved(Recorded(c, e))
  {
    var d := Recorded(c, e);
    RecordedMeans(c, e, "");
    forall user | user != "" ensures Balance(d, user) == Replay(d.entries, user) {
      RecordedMeans(c, e, user);
    }
  }

  lemma FreshReference(b: Book, c: Book, e: Entry)
    requires Distinct(b) && c.entries == b.entries && c.escrows == b.escrows
    requires !ReferenceExists(b, e.reference)
    ensures Distinct(Recorded(c, e))
  {
  }

  lemma DebitBounded(b: Book, user: string, amount: int)
    requires Bounded(b) && user in b.accounts && 0 < amount <= b.accounts[user]
    ensures Bounded(Debited(b, user, amount))
  {
  }

  lemma CreditBounded(b: Book, user: string, amount: int)
    requires Bounded(b) && user in b.accounts && 0 < amount && !Overflows(b.accounts[user], amount)
    ensures Bounded(Credited(b, user, amount))
  {
  }

  // ---------- every operation keeps it ----------

  // A book that is sound but for the entry still to be recorded.
  lemma Posted(b: Book, c: Book, e: Entry)
    requires Sound(b) && Bounded(c) && Balances(b, c, e) && Distinct(Recorded(c, e))
    ensures Sound(Recorded(c, e))
  {
    PostingKeeps(b, c, e);
  }

  lemma TransferBalances(b: Book, from: string, to: string, amount: int, e: Entry)
    requires from in b.accounts && to in b.accounts && from != to && from != "" && to != ""
    requires e.kind == Transfer && e.from == from && e.to == to && e.amount == amount
    ensures Balances(b, Credited(Debited(b, from, amount), to, amount), e)
  {
    CreditedMeans(b, from, amount);
    CreditedMeans(Debited(b, from, amount), to, amount);
  }

  lemma TransferPosts(b: Book, from: string, to: string, amount: int, reference: string, memo: string)
    requires Sound(b) && from in b.accounts && to in b.accounts && from != to && !ReferenceExists(b, reference)
    requires 0 < amount <= b.accounts[from] && !Overflows(b.accounts[to], amount)
    ensures Sound(Recorded(Credited(Debited(b, from, amount), to, amount), Entry(Transfer, reference, from, to, amount, memo)))
  {
    var e := Entry(Transfer, reference, from, to, amount, memo);
    var c := Credited(Debited(b, from, amount), to, amount);
    DebitBounded(b, from, amount);
    CreditBounded(Debited(b, from, amount), to, amount);
    TransferBalances(b, from, to, amount, e);
    FreshReference(b, c, e);
    Posted(b, c, e);
  }

  lemma EnsuredReferences(b: Book, user: string, reference: string)
    ensures ReferenceExists(Ensured(b, user), reference) <==> ReferenceExists(b, reference)
  {
  }

  lemma TransferKeeps(b: Book, from: string, to: string, amount: int64, reference: string, memo: string)
    requires Sound(b)
    ensures Sound(Transferred(b, from, to, amount, reference, memo).book)
  {
    if from != "" && to != "" {
      var c := Ensured(b, from);
      EnsuredKeeps(b, from);
      EnsuredKeeps(c, to);
      EnsuredReferences(b, from, reference);
      EnsuredReferences(c, to, reference);
      if Transferred(b, from, to, amount, reference, memo).reason == "" {
        TransferPosts(Ensured(c, to), from, to, amount, reference, memo);
      }
    }
  }

  lemma MintPosts(b: Book, to: string, amount: int, reference: string, memo: string)
    requires Sound(b) && to in b.accounts && !ReferenceExists(b, reference)
    requires 0 < amount && !Overflows(b.accounts[to], amount)
    ensures Sound(Recorded(Credited(b, to, amount), Entry(Mint, reference, "", to, amount, memo)))
  {
    var e := Entry(Mint, reference, "", to, amount, memo);
    var c := Credited(b, to, amount);
    CreditBounded(b, to, amount);
    CreditedMeans(b, to, amount);
    FreshReference(b, c, e);
    Posted(b, c, e);
  }

  lemma MintKeeps(b: Book, to: string, amount: int64, reference: string, memo: string)
    requires Sound(b)
    ensures Sound(Minted(b, to, amount, reference, memo).book)
  {
    if to != "" {
      EnsuredKeeps(b, to);
      EnsuredReferences(b, to, reference);
      if Minted(b, to, amount, reference, memo).reason == "" {
        MintPosts(Ensured(b, to), to, amount, reference, memo);
      }
    }
  }

  lemma BurnPosts(b: Book, from: string, amount: int, reference: string, memo: string)
    requires Sound(b) && from in b.accounts && !ReferenceExists(b, reference) && 0 < amount <= b.accounts[from]
    ensures Sound(Recorded(Debited(b, from, amount), Entry(Burn, reference, from, "", amount, memo)))
  {
    var e := Entry(Burn, reference, from, "", amount, memo);
    var c := Debited(b, from, amount);
    DebitBounded(b, from, amount);
    CreditedMeans(b, from, amount);
    FreshReference(b, c, e);
    Posted(b, c, e);
  }

  lemma BurnKeeps(b: Book, from: string, amount: int64, reference: string, memo: string)
    requires Sound(b)
    ensures Sound(Burned(b, from, amount, reference, memo).book)
  {
    if from != "" {
      EnsuredKeeps(b, from);
      EnsuredReferences(b, from, reference);
      if Burned(b, from, amount, reference, memo).reason == "" {
        BurnPosts(Ensured(b, from), from, amount, reference, memo);
      }
    }
  }

  lemma OpenedBounded(b: Book, id: string, e: Escrow)
    requires Bounded(b) && e.buyer != "" && e.seller != "" && 0 < e.amount <= MAX
    ensures Bounded(Opened(b, id, e))
  {
  }

  lemma OpenedDistinct(b: Book, id: string, e: Escrow)
    requires Distinct(b)
    requires if id in b.escrows then b.escrows[id].reference == e.reference else !ReferenceExists(b, e.reference)
    ensures Distinct(Opened(b, id, e))
  {
  }

  lemma DerivedReference(b: Book, e: Entry)
    requires Distinct(b) && !ChosenByCaller(e)
    ensures Distinct(Recorded(b, e))
  {
  }

  lemma ReserveBalances(b: Book, id: string, buyer: string, x: Escrow, e: Entry)
    requires buyer in b.accounts && id !in b.escrows && x.state == Reserved && x.amount == e.amount
    requires e.kind == Reserve && e.from == buyer && e.to == ""
    ensures Balances(b, Opened(Debited(b, buyer, e.amount), id, x), e)
  {
    CreditedMeans(b, buyer, e.amount);
    OpenedMeans(Debited(b, buyer, e.amount), id, x);
  }

  lemma ReservePosts(b: Book, id: string, buyer: string, seller: string, amount: int, reference: string)
    requires Sound(b) && buyer in b.accounts && seller != "" && id !in b.escrows && !ReferenceExists(b, reference)
    requires 0 < amount <= b.accounts[buyer]
    ensures Sound(Recorded(Opened(Debited(b, buyer, amount), id, Escrow(reference, buyer, seller, amount, Reserved)),
                           Entry(Reserve, reference + ":reserve", buyer, "", amount, "escrow reserve")))
  {
    var x := Escrow(reference, buyer, seller, amount, Reserved);
    var e := Entry(Reserve, reference + ":reserve", buyer, "", amount, "escrow reserve");
    var c := Debited(b, buyer, amount);
    DebitBounded(b, buyer, amount);
    OpenedBounded(c, id, x);
    ReserveBalances(b, id, buyer, x, e);
    OpenedDistinct(c, id, x);
    DerivedReference(Opened(c, id, x), e);
    Posted(b, Opened(c, id, x), e);
  }

  lemma ReserveKeeps(b: Book, id: string, buyer: string, seller: string, amount: int64, reference: string)
    requires Sound(b) && id !in b.escrows
    ensures Sound(ReservedBy(b, id, buyer, seller, amount, reference).book)
  {
    if buyer != "" && seller != "" {
      var c := Ensured(b, buyer);
      EnsuredKeeps(b, buyer);
      EnsuredKeeps(c, seller);
      EnsuredReferences(b, buyer, reference);
      EnsuredReferences(c, seller, reference);
      if ReservedBy(b, id, buyer, seller, amount, reference).reason == "" {
        ReservePosts(Ensured(c, seller), id, buyer, seller, amount, reference);
      }
    }
  }

  lemma SettleBalances(b: Book, id: string, payee: string, state: EscrowState, e: Entry)
    requires id in b.escrows && b.escrows[id].state == Reserved && state != Reserved && payee in b.accounts
    requires (e.kind == Commit || e.kind == Release) && e.from == "" && e.to == payee && e.amount == b.escrows[id].amount
    ensures Balances(b, Opened(Credited(b, payee, e.amount), id, b.escrows[id].(state := state)), e)
  {
    CreditedMeans(b, payee, e.amount);
    OpenedMeans(Credited(b, payee, e.amount), id, b.escrows[id].(state := state));
  }

  lemma SettlePosts(b: Book, id: string, payee: string, state: EscrowState, e: Entry)
    requires Sound(b) && id in b.escrows && b.escrows[id].state == Reserved && state != Reserved && payee in b.accounts
    requires !Overflows(b.accounts[payee], b.escrows[id].amount)
    requires (e.kind == Commit || e.kind == Release) && e.from == "" && e.to == payee && e.amount == b.escrows[id].amount
    ensures Sound(Recorded(Opened(Credited(b, payee, e.amount), id, b.escrows[id].(state := state)), e))
  {
    var x := b.escrows[id].(state := state);
    var c := Credited(b, payee, e.amount);
    CreditBounded(b, payee, e.amount);
    OpenedBounded(c, id, x);
    SettleBalances(b, id, payee, state, e);
    OpenedDistinct(c, id, x);
    DerivedReference(Opened(c, id, x), e);
    Posted(b, Opened(c, id, x), e);
  }

  lemma SettleKeeps(b: Book, id: string, state: EscrowState)
    requires Sound(b) && state != Reserved
    ensures Sound(Settled(b, id, state).book)
  {
    if id in b.escrows {
      var e := b.escrows[id];
      var payee := if state == Committed then e.seller else e.buyer;
      EnsuredKeeps(b, payee);
      if Settled(b, id, state).reason == "" {
        var entry := if state == Committed
          then Entry(Commit, e.reference + ":commit", "", payee, e.amount, "escrow commit")
          else Entry(Release, e.reference + ":release", "", payee, e.amount, "escrow release");
        SettlePosts(Ensured(b, payee), id, payee, state, entry);
      }
    }
  }

  // ---------- escrows can settle ----------

  // A reserved escrow and the payee's balance are both part of the supply.
  lemma PartOfSupply(b: Book, id: string, user: string)
    requires Bounded(b) && id in b.escrows && b.escrows[id].state == Reserved
    ensures Balance(b, user) + b.escrows[id].amount <= Supply(b)
  {
    SumMinus(Holdings(b.escrows), id);
    SumSubset(map[], Holdings(b.escrows) - {id});
    SumSubset(map[], b.accounts);
    if user in b.accounts {
      SumMinus(b.accounts, user);
      SumSubset(map[], b.accounts - {user});
    }
  }

  // While what was issued fits 64 bits, a reserved escrow can always be committed or released.
  lemma EscrowSettles(b: Book, id: string, state: EscrowState)
    requires Sound(b) && id in b.escrows && b.escrows[id].state == Reserved && state != Reserved
    requires Issued(b.entries) <= MAX
    ensures Settled(b, id, state).reason == ""
  {
    var payee := if state == Committed then b.escrows[id].seller else b.escrows[id].buyer;
    PartOfSupply(b, id, payee);
  }

  // Settling a reserved escrow fails in one case only, the payee's balance growing past 64 bits.
  lemma SettlingFails(b: Book, id: string, state: EscrowState)
    requires Sound(b) && state != Reserved
    ensures id !in b.escrows ==> Settled(b, id, state).reason == "escrow-not-found"
    ensures id in b.escrows ==>
      var e := b.escrows[id];
      var payee := if state == Committed then e.seller else e.buyer;
      Settled(b, id, state).reason ==
        if e.state != Reserved then "escrow-not-reserved"
        else if Balance(b, payee) + e.amount > MAX then "balance-overflow" else ""
    ensures Settled(b, id, state).reason == "" ==>
      Settled(Settled(b, id, state).book, id, state).reason == "escrow-not-reserved"
  {
  }

  // ---------- the ledger ----------

  class EconomyLedger {
    var accounts: map<string, int>
    var escrows: map<string, Escrow>
    var entries: seq<Entry>

    function Contents(): Book
      reads this
    {
      Book(accounts, escrows, entries)
    }

    constructor ()
      ensures Contents() == Book(map[], map[], [])
    {
      accounts, escrows, entries := map[], map[], [];
    }

    method EnsureAccount(user: string)
      modifies this`accounts
      ensures Contents() == Ensured(old(Contents()), user)
    {
      if user !in accounts {
        accounts := accounts[user := 0];
      }
    }

    method CheckReference(reference: string) returns (found: bool)
      ensures found <==> ReferenceExists(Contents(), reference)
    {
      for i := 0 to |entries|
        invariant forall j :: 0 <= j < i ==> entries[j].reference != reference
      {
        if entries[i].reference == reference {
          return true;
        }
      }
      var rest := escrows.Keys;
      while rest != {}
        invariant rest <= escrows.Keys
        invariant forall id :: id in escrows && id !in rest ==> escrows[id].reference != reference
        decreases |rest|
      {
        var id :| id in rest;
        if escrows[id].reference == reference {
          return true;
        }
        rest := rest - {id};
      }
      found := false;
    }

    method Transfer(from: string, to: string, amount: int64, reference: string, memo: string) returns (reason: string)
      modifies this
      ensures Outcome(Contents(), reason) == Transferred(old(Contents()), from, to, amount, reference, memo)
    {
      if !SafeField(from, 256, false) || !SafeField(to, 256, false) || from == to || amount <= 0 ||
         !SafeField(reference, 128, false) || !SafeField(memo, 512, true) {
        return "invalid-transfer";
      }
      var used := CheckReference(reference);
      if used {
        return "duplicate-reference";
      }
      EnsureAccount(from);
      EnsureAccount(to);
      if accounts[from] < amount {
        return "insufficient-funds";
      }
      if Overflows(accounts[to], amount) {
        return "balance-overflow";
      }
      accounts := accounts[from := accounts[from] - amount];
      accounts := accounts[to := accounts[to] + amount];
      entries := entries + [Entry(EntryKind.Transfer, reference, from, to, amount, memo)];
      reason := "";
    }

    method Mint(to: string, amount: int64, reference: string, memo: string) returns (reason: string)
      modifies this
      ensures Outcome(Contents(), reason) == Minted(old(Contents()), to, amount, reference, memo)
    {
      if !SafeField(to, 256, false) || amount <= 0 || !SafeField(reference, 128, false) || !SafeField(memo, 512, true) {
        return "invalid-mint";
      }
      var used := CheckReference(reference);
      if used {
        return "duplicate-reference";
      }
      EnsureAccount(to);
      if Overflows(accounts[to], amount) {
        return "balance-overflow";
      }
      accounts := accounts[to := accounts[to] + amount];
      entries := entries + [Entry(EntryKind.Mint, reference, "", to, amount, memo)];
      reason := "";
    }

    method Burn(from: string, amount: int64, reference: string, memo: string) returns (reason: string)
      modifies this
      ensures Outcome(Contents(), reason) == Burned(old(Contents()), from, amount, reference, memo)
    {
      if !SafeField(from, 256, false) || amount <= 0 || !SafeField(reference, 128, false) || !SafeField(memo, 512, true) {
        return "invalid-burn";
      }
      var used := CheckReference(reference);
      if used {
        return "duplicate-reference";
      }
      EnsureAccount(from);
      if accounts[from] < amount {
        return "insufficient-funds";
      }
      accounts := accounts[from := accounts[from] - amount];
      entries := entries + [Entry(EntryKind.Burn, reference, from, "", amount, memo)];
      reason := "";
    }

    // `id` is the ledger's own random id.
    method ReserveEscrow(id: string, buyer: string, seller: string, amount: int64, reference: string) returns (reason: string)
      requires id !in escrows
      modifies this
      ensures Outcome(Contents(), reason) == ReservedBy(old(Contents()), id, buyer, seller, amount, reference)
    {
      if !SafeField(buyer, 256, false) || !SafeField(seller, 256, false) || buyer == seller || amount <= 0 ||
         !SafeField(reference, 128, false) {
        return "invalid-escrow";
      }
      var used := CheckReference(reference);
      if used {
        return "duplicate-reference";
      }
      EnsureAccount(buyer);
      EnsureAccount(seller);
      if Overflows(accounts[seller], amount) {
        return "balance-overflow";
      }
      if accounts[buyer] < amount {
        return "insufficient-funds";
      }
      accounts := accounts[buyer := accounts[buyer] - amount];
      escrows := escrows[id := Escrow(reference, buyer, seller, amount, Reserved)];
      entries := entries + [Entry(Reserve, reference + ":reserve", buyer, "", amount, "escrow reserve")];
      reason := "";
    }

    method CommitEscrow(id: string) returns (reason: string)
      modifies this
      ensures Outcome(Contents(), reason) == Settled(old(Contents()), id, Committed)
    {
      if id !in escrows {
        return "escrow-not-found";
      }
      var e := escrows[id];
      if e.state != Reserved {
        return "escrow-not-reserved";
      }
      EnsureAccount(e.seller);
      if Overflows(accounts[e.seller], e.amount) {
        return "balance-overflow";
      }
      accounts := accounts[e.seller := accounts[e.seller] + e.amount];
      escrows := escrows[id := e.(state := Committed)];
      entries := entries + [Entry(Commit, e.reference + ":commit", "", e.seller, e.amount, "escrow commit")];
      reason := "";
    }

    method ReleaseEscrow(id: string) returns (reason: string)
      modifies this
      ensures Outcome(Contents(), reason) == Settled(old(Contents()), id, Released)
    {
      if id !in escrows {
        return "escrow-not-found";
      }
      var e := escrows[id];
      if e.state != Reserved {
        return "escrow-not-reserved";
      }
      EnsureAccount(e.buyer);
      if Overflows(accounts[e.buyer], e.amount) {
        return "balance-overflow";
      }
      accounts := accounts[e.buyer := accounts[e.buyer] + e.amount];
      escrows := escrows[id := e.(state := Released)];
      entries := entries + [Entry(Release, e.reference + ":release", "", e.buyer, e.amount, "escrow release")];
      reason := "";
    }

    // The supply, cut off at the largest 64-bit integer, in whatever order the tables are walked.
    method TotalSupplyMinor() returns (total: int)
      requires Sound(Contents())
      ensures total == if Supply(Contents()) <= MAX then Supply(Contents()) else MAX
    {
      SumSubset(map[], accounts);
      SumSubset(map[], Holdings(escrows));
      var owned, cut := Total(accounts, 0);
      if cut {
        return MAX;
      }
      total, cut := TotalHeld(escrows, owned);
      if cut {
        return MAX;
      }
    }
  }

  // Adding up amounts until they would pass 64 bits.
  method Total(amounts: map<string, int>, start: int) returns (total: int, cut: bool)
    requires 0 <= start <= MAX && forall k :: k in amounts ==> 0 <= amounts[k] <= MAX
    ensures cut <==> start + Sum(amounts) > MAX
    ensures !cut ==> total == start + Sum(amounts)
  {
    total := start;
    var rest := amounts;
    while rest != map[]
      invariant rest.Keys <= amounts.Keys && forall k :: k in rest ==> rest[k] == amounts[k]
      invariant 0 <= total <= MAX && total + Sum(rest) == start + Sum(amounts)
      decreases |rest|
    {
      var k :| k in rest;
      SumMinus(rest, k);
      SumSubset(map[], rest - {k});
      if amounts[k] > 0 && Overflows(total, amounts[k]) {
        return 0, true;
      }
      total := total + amounts[k];
      rest := rest - {k};
    }
    cut := false;
  }

  method TotalHeld(escrows: map<string, Escrow>, start: int) returns (total: int, cut: bool)
    requires 0 <= start <= MAX && forall id :: id in escrows ==> 0 <= escrows[id].amount <= MAX
    ensures cut <==> start + Sum(Holdings(escrows)) > MAX
    ensures !cut ==> total == start + Sum(Holdings(escrows))
  {
    total := start;
    var rest := escrows;
    while rest != map[]
      invariant rest.Keys <= escrows.Keys && forall id :: id in rest ==> rest[id] == escrows[id]
      invariant 0 <= total <= MAX && total + Sum(Holdings(rest)) == start + Sum(Holdings(escrows))
      decreases |rest|
    {
      var id :| id in rest;
      SumMinus(Holdings(rest), id);
      assert Holdings(rest) - {id} == Holdings(rest - {id});
      SumSubset(map[], Holdings(rest - {id}));
      if escrows[id].state == Reserved {
        if Overflows(total, escrows[id].amount) {
          return 0, true;
        }
        total := total + escrows[id].amount;
      }
      rest := rest - {id};
    }
    cut := false;
  }

  // ---------- every run ----------

  // One call on the ledger; a new escrow's id is fresh.
  ghost predicate Call(b: Book, c: Book) {
    || (exists user :: user != "" && c == Ensured(b, user))
    || (exists from, to, amount, reference, memo :: c == Transferred(b, from, to, amount, reference, memo).book)
    || (exists to, amount, reference, memo :: c == Minted(b, to, amount, reference, memo).book)
    || (exists from, amount, reference, memo :: c == Burned(b, from, amount, reference, memo).book)
    || (exists id, buyer, seller, amount, reference ::
          id !in b.escrows && c == ReservedBy(b, id, buyer, seller, amount, reference).book)
    || (exists id :: c == Settled(b, id, Committed).book)
    || (exists id :: c == Settled(b, id, Released).book)
  }

  lemma CallKeeps(b: Book, c: Book)
    requires Sound(b) && Call(b, c)
    ensures Sound(c)
  {
    if user :| user != "" && c == Ensured(b, user) {
      EnsuredKeeps(b, user);
    } else if from, to, amount, reference, memo :| c == Transferred(b, from, to, amount, reference, memo).book {
      TransferKeeps(b, from, to, amount, reference, memo);
    } else if to, amount, reference, memo :| c == Minted(b, to, amount, reference, memo).book {
      MintKeeps(b, to, amount, reference, memo);
    } else if from, amount, reference, memo :| c == Burned(b, from, amount, reference, memo).book {
      BurnKeeps(b, from, amount, reference, memo);
    } else if id, buyer, seller, amount, reference :|
        id !in b.escrows && c == ReservedBy(b, id, buyer, seller, amount, reference).book {
      ReserveKeeps(b, id, buyer, seller, amount, reference);
    } else if id :| c == Settled(b, id, Committed).book {
      SettleKeeps(b, id, Committed);
    } else {
      var id :| c == Settled(b, id, Released).book;
      SettleKeeps(b, id, Released);
    }
  }

  // From an empty ledger, after any calls: every balance is explained by the entries and within 64
  // bits, and what users and escrows hold is what was minted less what was burned.
  lemma RunSound(b: Book)
    requires Reaches(Call, Book(map[], map[], []), b)
    ensures Sound(b)
  {
    EmptySound();
    var n: nat :| Path(Call, Book(map[], map[], []), b, n);
    forall c, d | Sound(c) && Call(c, d) ensures Sound(d) {
      CallKeeps(c, d);
    }
    PathKeeps(Call, Sound, Book(map[], map[], []), b, n);
  }

  lemma EmptySound()
    ensures Sound(Book(map[], map[], []))
  {
    var none: map<string, Escrow> := map[];
    assert Holdings(none) == map[];
  }
}
