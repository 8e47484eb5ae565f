/** Accounts and their postings. Balances are whole cents; amounts arrive in yuan with any fraction. */
module Ledger {
  import opened Basics

  // ---- rounding to cents

  /** round2, counted in cents: half away from zero. */
  function Cents(yuan: real): int {
    if yuan >= 0.0 then (yuan * 100.0 + 0.5).Floor else -(-yuan * 100.0 + 0.5).Floor
  }

  function Yuan(cents: int): real {
    cents as real / 100.0
  }

  /** Rounding is odd, so both ends of a transfer round to the same number of cents. */
  lemma RoundingIsOdd(yuan: real)
    ensures Cents(-yuan) == -Cents(yuan)
  {
    if yuan == 0.0 {
      assert (0.5 as real).Floor == 0;
    }
  }

  lemma WholeCentsStay(n: int)
    ensures Cents(Yuan(n)) == n
  {
    assert Yuan(n) * 100.0 == n as real;
    assert -Yuan(n) * 100.0 == -n as real;
    assert (n as real + 0.5).Floor == n && (-n as real + 0.5).Floor == -n;
  }

  /** The rounded amount is the nearest whole number of cents, and of two that are as near the one further from zero. */
  lemma RoundingIsNearest(yuan: real)
    ensures yuan >= 0.0 ==> -0.5 < Cents(yuan) as real - yuan * 100.0 <= 0.5
    ensures yuan <= 0.0 ==> -0.5 <= Cents(yuan) as real - yuan * 100.0 < 0.5
  {
  }

  // ---- rows

  datatype Level = Enterprise | Department | Employee

  /** One account per owner of a level; the key stands for the row's id as well. */
  datatype Key = Key(level: Level, owner: Id)

  datatype Account = Account(balance: int, credit: nat, active: bool)

  datatype Kind = Recharged | AllocatedOut | AllocatedIn | TripCost | ChargeCost | Adjusted
  datatype Posting = Posting(account: Key, kind: Kind, amount: int, after: int, ref: Option<Id>)

  datatype Books = Books(accounts: map<Key, Account>, postings: seq<Posting>)

  const BLANK: Account := Account(0, 0, true)

  function Read(b: Books, k: Key): Account {
    if k in b.accounts then b.accounts[k] else BLANK
  }

  predicate CanAllocate(from: Level, to: Level) {
    (from.Enterprise? && to.Department?) || (from.Department? && to.Employee?)
  }

  const EPSILON: real := 0.000000001

  predicate Sufficient(a: Account, amount: real) {
    Yuan(a.balance + a.credit) + EPSILON >= amount
  }

  predicate Overdrawn(a: Account) {
    Yuan(a.balance) < -Yuan(a.credit) - EPSILON
  }

  // ---- one movement

  /** Post: the new balance is computed from the row the caller locked and read, not from the table. */
  function Posted(b: Books, k: Key, read: Account, kind: Kind, yuan: real, ref: Option<Id>): Books {
    var amount := Cents(yuan);
    var after := Cents(Yuan(read.balance + amount));
    Books(b.accounts[k := read.(balance := after)], b.postings + [Posting(k, kind, amount, after, ref)])
  }

  function Ensured(b: Books, k: Key): Books {
    b.(accounts := b.accounts[k := Read(b, k)])
  }

  /** Debit: the account is created if need be, and a zero amount leaves no posting. */
  function Debited(b: Books, k: Key, read: Account, kind: Kind, yuan: real, ref: Option<Id>): Books {
    if yuan == 0.0 then b.(accounts := b.accounts[k := read])
    else Posted(b, k, read, kind, if yuan > 0.0 then -yuan else yuan, ref)
  }

  /** Both sides of a transfer, each from the row read under its lock. */
  function Moved(b: Books, from: Key, fromRead: Account, to: Key, toRead: Account, yuan: real): Books {
    Posted(Posted(b, from, fromRead, AllocatedOut, -yuan, Some(to.owner)), to, toRead, AllocatedIn, yuan, Some(from.owner))
  }

  // ---- what the books must satisfy

  function SumFor(ps: seq<Posting>, k: Key): int {
    if ps == [] then 0
    else
      var last := ps[|ps| - 1];
      SumFor(ps[..|ps| - 1], k) + if last.account == k then last.amount else 0
  }

  function LastAfter(ps: seq<Posting>, k: Key): int {
    if ps == [] then 0
    else
      var last := ps[|ps| - 1];
      if last.account == k then last.after else LastAfter(ps[..|ps| - 1], k)
  }

  /** Every posting continues its account's chain: its balance_after is the previous one plus its amount. */
  predicate Chained(ps: seq<Posting>) {
    ps == [] ||
    var last, before := ps[|ps| - 1], ps[..|ps| - 1];
    Chained(before) && last.after == LastAfter(before, last.account) + last.amount
  }

  ghost predicate Balanced(b: Books) {
    Chained(b.postings) && forall k :: Read(b, k).balance == LastAfter(b.postings, k)
  }

  lemma {:induction false} ChainAddsUp(ps: seq<Posting>, k: Key)
    requires Chained(ps)
    ensures LastAfter(ps, k) == SumFor(ps, k)
  {
    if ps != [] {
      ChainAddsUp(ps[..|ps| - 1], k);
      ChainAddsUp(ps[..|ps| - 1], ps[|ps| - 1].account);
    }
  }

  /** In balanced books every balance is the sum of the account's postings, and its last balance_after. */
  lemma BalanceIsSumOfPostings(b: Books, k: Key)
    requires Balanced(b)
    ensures Read(b, k).balance == SumFor(b.postings, k) == LastAfter(b.postings, k)
  {
    ChainAddsUp(b.postings, k);
  }

  lemma PostKeepsBalance(b: Books, k: Key, kind: Kind, yuan: real, ref: Option<Id>)
    requires Balanced(b)
    ensures var c := Posted(b, k, Read(b, k), kind, yuan, ref);
            && Balanced(c) && c.accounts[k].balance == Read(b, k).balance + Cents(yuan)
            && |c.postings| == |b.postings| + 1 && c.postings[..|b.postings|] == b.postings
  {
    WholeCentsStay(Read(b, k).balance + Cents(yuan));
    var c := Posted(b, k, Read(b, k), kind, yuan, ref);
    assert c.postings[..|c.postings| - 1] == b.postings;
    forall i: Key ensures Read(c, i).balance == LastAfter(c.postings, i) {
      assert Read(b, i).balance == LastAfter(b.postings, i);
    }
  }

  lemma DebitKeepsBalance(b: Books, k: Key, kind: Kind, yuan: real, ref: Option<Id>)
    requires Balanced(b)
    ensures var c := Debited(b, k, Read(b, k), kind, yuan, ref);
            Balanced(c) && k in c.accounts && c.accounts[k].balance == Read(b, k).balance - Abs(Cents(yuan))
  {
    RoundingIsOdd(yuan);
    if yuan != 0.0 {
      PostKeepsBalance(b, k, kind, if yuan > 0.0 then -yuan else yuan, ref);
    } else {
      var c := Debited(b, k, Read(b, k), kind, yuan, ref);
      assert forall i :: Read(c, i) == Read(b, i);
      assert (0.5 as real).Floor == 0;
    }
  }

  function Abs(n: int): nat {
    if n < 0 then -n else n
  }

  /** What an allocation does: nothing is lost between the two accounts, and the books stay balanced. */
  lemma MoveKeepsBalance(b: Books, from: Key, to: Key, yuan: real)
    requires Balanced(b) && from != to
    ensures var c := Moved(b, from, Read(b, from), to, Read(b, to), yuan);
            && Balanced(c)
            && c.accounts[from].balance == Read(b, from).balance - Cents(yuan)
            && c.accounts[to].balance == Read(b, to).balance + Cents(yuan)
            && forall k :: k != from && k != to ==> Read(c, k) == Read(b, k)
  {
    RoundingIsOdd(yuan);
    PostKeepsBalance(b, from, AllocatedOut, -yuan, Some(to.owner));
    var mid := Posted(b, from, Read(b, from), AllocatedOut, -yuan, Some(to.owner));
    assert Read(mid, to) == Read(b, to);
    PostKeepsBalance(mid, to, AllocatedIn, yuan, Some(from.owner));
  }

  /** The test is made on the unrounded amount with a tolerance, and still the rounded amount
      never takes the source below minus its credit limit. */
  lemma SufficientNeverOverdraws(a: Account, yuan: real)
    requires Sufficient(a, yuan)
    ensures a.balance - Cents(yuan) + a.credit >= 0
    ensures !Overdrawn(a.(balance := a.balance - Cents(yuan)))
  {
    var funds := a.balance + a.credit;
    assert Yuan(funds) * 100.0 == funds as real;
    assert yuan * 100.0 <= funds as real + 0.0000001;
    assert Cents(yuan) <= funds;
  }

  // ---- the tenant's total

  ghost function TotalOver(keys: set<Key>, accounts: map<Key, Account>): int
    requires keys <= accounts.Keys
  {
    if keys == {} then 0
    else
      var k :| k in keys;
      accounts[k].balance + TotalOver(keys - {k}, accounts)
  }

  ghost function Total(b: Books): int {
    TotalOver(b.accounts.Keys, b.accounts)
  }

  lemma {:induction false} TotalWithout(keys: set<Key>, accounts: map<Key, Account>, k: Key)
    requires keys <= accounts.Keys && k in keys
    ensures TotalOver(keys, accounts) == accounts[k].balance + TotalOver(keys - {k}, accounts)
  {
    var p :| p in keys && TotalOver(keys, accounts) == accounts[p].balance + TotalOver(keys - {p}, accounts);
    if p != k {
      TotalWithout(keys - {p}, accounts, k);
      TotalWithout(keys - {k}, accounts, p);
      assert keys - {p} - {k} == keys - {k} - {p};
    }
  }

  lemma {:induction false} TotalAgrees(keys: set<Key>, a: map<Key, Account>, b: map<Key, Account>)
    requires keys <= a.Keys && keys <= b.Keys && forall k :: k in keys ==> a[k].balance == b[k].balance
    ensures TotalOver(keys, a) == TotalOver(keys, b)
  {
    if keys != {} {
      var k :| k in keys;
      TotalWithout(keys, a, k);
      TotalWithout(keys, b, k);
      TotalAgrees(keys - {k}, a, b);
    }
  }

  lemma WriteMovesTotal(b: Books, k: Key, row: Account, ps: seq<Posting>)
    ensures Total(Books(b.accounts[k := row], ps)) == Total(b) + row.balance - Read(b, k).balance
  {
    var c := b.accounts[k := row];
    TotalWithout(c.Keys, c, k);
    var rest := c.Keys - {k};
    if k in b.accounts {
      TotalWithout(b.accounts.Keys, b.accounts, k);
      assert b.accounts.Keys - {k} == rest;
    } else {
      assert b.accounts.Keys == rest;
    }
    TotalAgrees(rest, c, b.accounts);
  }

  lemma PostMovesTotal(b: Books, k: Key, kind: Kind, yuan: real, ref: Option<Id>)
    ensures Total(Posted(b, k, Read(b, k), kind, yuan, ref)) == Total(b) + Cents(yuan)
  {
    WholeCentsStay(Read(b, k).balance + Cents(yuan));
    var c := Posted(b, k, Read(b, k), kind, yuan, ref);
    WriteMovesTotal(b, k, c.accounts[k], c.postings);
  }

  /** An allocation leaves the sum of all balances as it was. */
  lemma MoveKeepsTotal(b: Books, from: Key, to: Key, yuan: real)
    requires from != to
    ensures Total(Moved(b, from, Read(b, from), to, Read(b, to), yuan)) == Total(b)
  {
    RoundingIsOdd(yuan);
    PostMovesTotal(b, from, AllocatedOut, -yuan, Some(to.owner));
    var mid := Posted(b, from, Read(b, from), AllocatedOut, -yuan, Some(to.owner));
    assert Read(mid, to) == Read(b, to);
    PostMovesTotal(mid, to, AllocatedIn, yuan, Some(from.owner));
  }

  // ---- the operations, one at a time

  const TENANT: Key := Key(Enterprise, 0)

  datatype Reply = Done | NotFound | Frozen | WrongLevels | Short | BadRequest

  /** The target by its id, which must exist, or by level and owner, created on first use. */
  datatype Target = ById(key: Key) | ByOwner(key: Key)

  function AllocateReply(b: Books, from: Key, to: Target, yuan: real): Reply {
    if from !in b.accounts then NotFound
    else if !b.accounts[from].active then Frozen
    else if to.ById? && to.key !in b.accounts then NotFound
    else if !CanAllocate(from.level, to.key.level) then WrongLevels
    else if !Sufficient(b.accounts[from], yuan) then Short
    else Done
  }

  function Allocated(b: Books, from: Key, to: Target, yuan: real): Books {
    if AllocateReply(b, from, to, yuan).Done?
    then Moved(b, from, Read(b, from), to.key, Read(b, to.key), yuan)
    else b
  }

  /** For an amount in whole cents the test asks exactly that balance and credit limit cover it. */
  lemma WholeAmountSufficesIff(a: Account, n: int)
    ensures Sufficient(a, Yuan(n)) <==> n <= a.balance + a.credit
  {
    assert Yuan(n) * 100.0 == n as real && Yuan(a.balance + a.credit) * 100.0 == (a.balance + a.credit) as real;
  }

  /** An allocation is granted exactly from an active account, one level down, to an account that exists or is named by
      its owner, when balance and credit limit cover the amount; the first of these that fails is the answer. */
  lemma AllocationIsGrantedIff(b: Books, from: Key, to: Target, yuan: real)
    ensures var reply := AllocateReply(b, from, to, yuan);
            var down := (from.level == Enterprise && to.key.level == Department)
                        || (from.level == Department && to.key.level == Employee);
            var there := to.ByOwner? || to.key in b.accounts;
            && (reply == Done <==>
                  from in b.accounts && b.accounts[from].active && there && down
                  && (b.accounts[from].balance + b.accounts[from].credit) as real / 100.0 + 0.000000001 >= yuan)
            && (reply == Frozen <==> from in b.accounts && !b.accounts[from].active)
            && (reply == NotFound <==> from !in b.accounts || (b.accounts[from].active && !there))
            && (reply == WrongLevels <==> from in b.accounts && b.accounts[from].active && there && !down)
  {
  }

  /** Every allocation, granted or refused, keeps the books balanced and the tenant's total, and never takes
      the source below minus its credit limit. */
  lemma AllocationIsSound(b: Books, from: Key, to: Target, yuan: real)
    requires Balanced(b)
    ensures var c := Allocated(b, from, to, yuan);
            && Balanced(c) && Total(c) == Total(b)
            && (AllocateReply(b, from, to, yuan).Done? ==> c.accounts[from].balance + c.accounts[from].credit >= 0)
  {
    if AllocateReply(b, from, to, yuan).Done? {
      MoveKeepsBalance(b, from, to.key, yuan);
      MoveKeepsTotal(b, from, to.key, yuan);
      SufficientNeverOverdraws(b.accounts[from], yuan);
    }
  }

  class AccountBook {
    var accounts: map<Key, Account>
    var postings: seq<Posting>

    constructor ()
      ensures State() == Books(map[], [])
    {
      accounts, postings := map[], [];
    }

    function State(): Books
      reads this
    {
      Books(accounts, postings)
    }

    method Ensure(k: Key) returns (row: Account)
      modifies this`accounts
      ensures State() == Ensured(old(State()), k)
      ensures row == Read(old(State()), k) == accounts[k]
    {
      if k !in accounts {
        accounts := accounts[k := BLANK];
      }
      row := accounts[k];
    }

    method Post(k: Key, read: Account, kind: Kind, yuan: real, ref: Option<Id>) returns (after: int)
      modifies this
      ensures State() == Posted(old(State()), k, read, kind, yuan, ref)
      ensures after == accounts[k].balance == read.balance + Cents(yuan)
    {
      var amount := Cents(yuan);
      after := Cents(Yuan(read.balance + amount));
      accounts := accounts[k := read.(balance := after)];
      postings := postings + [Posting(k, kind, amount, after, ref)];
      WholeCentsStay(read.balance + amount);
    }

    method Debit(k: Key, kind: Kind, yuan: real, ref: Option<Id>) returns (after: int)
      requires Balanced(State())
      modifies this
      ensures State() == Debited(old(State()), k, Read(old(State()), k), kind, yuan, ref) && Balanced(State())
      ensures after == Read(old(State()), k).balance - Abs(Cents(yuan))
    {
      DebitKeepsBalance(State(), k, kind, yuan, ref);
      var row := Ensure(k);
      if yuan == 0.0 {
        return row.balance;
      }
      after := Post(k, row, kind, if yuan > 0.0 then -yuan else yuan, ref);
    }

    method Recharge(yuan: real) returns (after: int)
      requires Balanced(State()) && yuan > 0.0
      modifies this
      ensures State() == Posted(old(State()), TENANT, Read(old(State()), TENANT), Recharged, yuan, None) && Balanced(State())
      ensures after == Read(old(State()), TENANT).balance + Cents(yuan)
    {
      PostKeepsBalance(State(), TENANT, Recharged, yuan, None);
      ghost var was := State();
      var row := Ensure(TENANT);
      after := Post(TENANT, row, Recharged, yuan, None);
      assert accounts == Posted(was, TENANT, Read(was, TENANT), Recharged, yuan, None).accounts;
    }

    method Adjust(k: Key, yuan: real) returns (reply: Reply)
      requires Balanced(State())
      modifies this
      ensures reply == if yuan == 0.0 then BadRequest else if k !in old(accounts) then NotFound else Done
      ensures State() == if reply.Done? then Posted(old(State()), k, Read(old(State()), k), Adjusted, yuan, None) else old(State())
      ensures Balanced(State())
    {
      if yuan == 0.0 {
        return BadRequest;
      }
      if k !in accounts {
        return NotFound;
      }
      PostKeepsBalance(State(), k, Adjusted, yuan, None);
      var after := Post(k, accounts[k], Adjusted, yuan, None);
      return Done;
    }

    /** The two postings of an allocation; the target's row is made on first use. */
    method Transfer(from: Key, source: Account, to: Key, yuan: real)
      requires from != to && source == Read(State(), from)
      modifies this
      ensures State() == Moved(old(State()), from, source, to, Read(old(State()), to), yuan)
    {
      var row := Ensure(to);
      var left := Post(from, source, AllocatedOut, -yuan, Some(to.owner));
      var right := Post(to, row, AllocatedIn, yuan, Some(from.owner));
    }

    /** A refused request is rolled back, so an account made for it goes away again. */
    method Allocate(from: Key, to: Target, yuan: real) returns (reply: Reply)
      requires Balanced(State()) && yuan > 0.0
      modifies this
      ensures reply == AllocateReply(old(State()), from, to, yuan)
      ensures State() == Allocated(old(State()), from, to, yuan)
      ensures Balanced(State()) && Total(State()) == Total(old(State()))
      ensures reply.Done? ==> accounts[from].balance + accounts[from].credit >= 0
    {
      if from !in accounts {
        return NotFound;
      }
      var source := accounts[from];
      if !source.active {
        return Frozen;
      }
      if to.ById? && to.key !in accounts {
        return NotFound;
      }
      if !CanAllocate(from.level, to.key.level) {
        return WrongLevels;
      }
      if !Sufficient(source, yuan) {
        return Short;
      }
      AllocationIsSound(State(), from, to, yuan);
      Transfer(from, source, to.key, yuan);
      return Done;
    }
  }
}
