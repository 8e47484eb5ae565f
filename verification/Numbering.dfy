/** Daily sequence numbers: "<prefix>-YYYYMMDD-<seq>", allocated under an advisory lock. */
module Numbering {
  import opened Basics

  // ---- decimal text

  predicate IsDigit(c: char) {
    '0' <= c <= '9'
  }

  function Digit(d: nat): char
    requires d <= 9
  {
    ('0' as int + d) as char
  }

  function Decimal(n: nat): string {
    if n < 10 then [Digit(n)] else Decimal(n / 10) + [Digit(n % 10)]
  }

  /** Zeros in front up to the width; a number that is already wider is left alone. */
  function Pad(s: string, width: nat): string
    decreases width - |s|
  {
    if |s| >= width then s else Pad("0" + s, width)
  }

  predicate AllDigits(s: string) {
    forall i :: 0 <= i < |s| ==> IsDigit(s[i])
  }

  function Read(s: string): nat
    requires AllDigits(s)
  {
    if s == "" then 0 else 10 * Read(s[..|s| - 1]) + (s[|s| - 1] as int - '0' as int)
  }

  lemma {:induction false} ReadsBack(n: nat)
    ensures AllDigits(Decimal(n)) && Decimal(n) != "" && Read(Decimal(n)) == n
  {
    if n >= 10 {
      ReadsBack(n / 10);
      var s := Decimal(n);
      assert s[..|s| - 1] == Decimal(n / 10);
    }
  }

  lemma {:induction false} ZeroInFront(s: string)
    requires AllDigits(s)
    ensures AllDigits("0" + s) && Read("0" + s) == Read(s)
  {
    var t := "0" + s;
    assert forall i :: 0 < i < |t| ==> t[i] == s[i - 1];
    if s != "" {
      var u := s[..|s| - 1];
      ZeroInFront(u);
      assert t[..|t| - 1] == "0" + u;
    } else {
      assert t[..0] == "";
    }
  }

  lemma {:induction false} PaddingReadsBack(s: string, width: nat)
    requires AllDigits(s)
    ensures AllDigits(Pad(s, width)) && |Pad(s, width)| >= |s| && Read(Pad(s, width)) == Read(s)
    decreases width - |s|
  {
    if |s| < width {
      ZeroInFront(s);
      PaddingReadsBack("0" + s, width);
    }
  }

  function Zeros(n: nat): (z: string)
    ensures |z| == n && forall i :: 0 <= i < n ==> z[i] == '0'
  {
    seq(n, _ => '0')
  }

  /** Padding reaches the width and no more: as many zeros as are missing, then the text. */
  lemma {:induction false} PaddingFills(s: string, width: nat)
    ensures Pad(s, width) == Zeros(Max(|s|, width) - |s|) + s
    decreases width - |s|
  {
    if |s| < width {
      PaddingFills("0" + s, width);
      OneMoreZero(width - |s| - 1, s);
    } else {
      assert Zeros(0) + s == s;
    }
  }

  lemma OneMoreZero(n: nat, s: string)
    ensures Zeros(n) + ("0" + s) == Zeros(n + 1) + s
  {
    assert Zeros(n) + "0" == Zeros(n + 1);
    assert Zeros(n) + ("0" + s) == (Zeros(n) + "0") + s;
  }

  // ---- numbers

  // The digits at the end of the text.
  function Tail(s: string): (t: string)
    ensures |t| <= |s| && AllDigits(t)
  {
    if s != "" && IsDigit(s[|s| - 1]) then Tail(s[..|s| - 1]) + [s[|s| - 1]] else ""
  }

  /** What the query's pattern -(\d+)$ reads: the digits at the end, when a dash stands before them. */
  function TrailingNumber(s: string): Option<nat> {
    var t := Tail(s);
    if t != "" && |t| < |s| && s[|s| - |t| - 1] == '-' then Some(Read(t)) else None
  }

  function FormatNo(prefix: string, day: string, seqNo: nat, width: nat): string {
    DayPrefix(prefix, day) + "-" + Pad(Decimal(seqNo), width)
  }

  function DayPrefix(prefix: string, day: string): string {
    prefix + "-" + day
  }

  lemma {:induction false} TailAfterDash(head: string, digits: string)
    requires AllDigits(digits)
    ensures Tail(head + "-" + digits) == digits
    decreases |digits|
  {
    var s := head + "-" + digits;
    if digits != "" {
      var d := digits[..|digits| - 1];
      TailAfterDash(head, d);
      assert s[..|s| - 1] == head + "-" + d;
    }
  }

  /** The number read back from a formatted one is the number formatted, at any width. */
  lemma FormatReadsBack(prefix: string, day: string, seqNo: nat, width: nat)
    ensures TrailingNumber(FormatNo(prefix, day, seqNo, width)) == Some(seqNo)
  {
    ReadsBack(seqNo);
    PaddingReadsBack(Decimal(seqNo), width);
    TailAfterDash(DayPrefix(prefix, day), Pad(Decimal(seqNo), width));
  }

  /** A formatted number is the prefix, the day and the number in decimal, with zeros in front of that up to the width
      and none beyond it. */
  lemma FormatIsPadded(prefix: string, day: string, seqNo: nat, width: nat)
    ensures var digits := Decimal(seqNo);
            FormatNo(prefix, day, seqNo, width) == prefix + "-" + day + "-" + (Zeros(Max(|digits|, width) - |digits|) + digits)
  {
    PaddingFills(Decimal(seqNo), width);
  }

  // ---- allocation

  // A day is written with eight digits.
  type Day = s: string | |s| == 8 witness "20250618"

  /** Where one allocating transaction stands; it keeps the day's lock from Locked until it ends. */
  datatype Stage = Waiting | Locked | Inserted(no: string) | Ended
  datatype Txn = Txn(day: Day, stage: Stage)

  /** The committed numbers of one table, in commit order, and the transactions of a run. */
  datatype Table = Table(prefix: string, width: nat, committed: seq<string>, txns: map<Id, Txn>)

  datatype Action = Begin(day: Day) | Lock | Insert | Commit | Rollback

  predicate HoldsLock(x: Txn) {
    x.stage.Locked? || x.stage.Inserted?
  }

  /** The committed numbers that the query's LIKE selects for one day. */
  function RowsLike(rows: seq<string>, key: string): seq<string> {
    if rows == [] then []
    else
      var m := |rows| - 1;
      RowsLike(rows[..m], key) + (if key + "-" <= rows[m] then [rows[m]] else [])
  }

  function MaxNumber(rows: seq<string>): nat {
    if rows == [] then 0
    else
      var n := TrailingNumber(rows[|rows| - 1]);
      Max(MaxNumber(rows[..|rows| - 1]), if n.Some? then n.value else 0)
  }

  /** The next number of the day, one above the greatest committed. */
  function NextNo(t: Table, day: Day): string {
    FormatNo(t.prefix, day, MaxNumber(RowsLike(t.committed, DayPrefix(t.prefix, day))) + 1, t.width)
  }

  predicate Enabled(t: Table, id: Id, a: Action) {
    match a
    case Begin(_) => id !in t.txns
    case Lock => id in t.txns && t.txns[id].stage.Waiting?
      && forall other :: other in t.txns && HoldsLock(t.txns[other]) ==> t.txns[other].day != t.txns[id].day
    case Insert => id in t.txns && t.txns[id].stage.Locked?
    case Commit => id in t.txns && t.txns[id].stage.Inserted?
    case Rollback => id in t.txns && !t.txns[id].stage.Ended?
  }

  function Step(t: Table, id: Id, a: Action): Table {
    if !Enabled(t, id, a) then t
    else match a
      case Begin(day) => t.(txns := t.txns[id := Txn(day, Waiting)])
      case Lock => t.(txns := t.txns[id := t.txns[id].(stage := Locked)])
      case Insert => t.(txns := t.txns[id := t.txns[id].(stage := Inserted(NextNo(t, t.txns[id].day)))])
      case Commit => t.(committed := t.committed + [t.txns[id].stage.no], txns := t.txns[id := t.txns[id].(stage := Ended)])
      case Rollback => t.(txns := t.txns[id := t.txns[id].(stage := Ended)])
  }

  function Run(t: Table, steps: seq<(Id, Action)>): Table {
    if steps == [] then t
    else
      var last := steps[|steps| - 1];
      Step(Run(t, steps[..|steps| - 1]), last.0, last.1)
  }

  /** The numbers 1 to k of a day, in order. */
  function Numbers(t: Table, day: Day, k: nat): seq<string> {
    if k == 0 then [] else Numbers(t, day, k - 1) + [FormatNo(t.prefix, day, k, t.width)]
  }

  function RowsOf(t: Table, day: Day): seq<string> {
    RowsLike(t.committed, DayPrefix(t.prefix, day))
  }

  /** The numbers of every day are exactly 1 to k, in the order they were committed, without a repeat or a gap. */
  ghost predicate Gapless(t: Table) {
    forall day: Day :: RowsOf(t, day) == Numbers(t, day, |RowsOf(t, day)|)
  }

  ghost predicate Distinct(t: Table) {
    forall i, j :: 0 <= i < j < |t.committed| ==> t.committed[i] != t.committed[j]
  }

  /** One lock holder a day, and a number drawn but not committed is still the next one. */
  ghost predicate Serial(t: Table) {
    && (forall x, y ::
          (x in t.txns && y in t.txns && HoldsLock(t.txns[x]) && HoldsLock(t.txns[y])
           && t.txns[x].day == t.txns[y].day) ==> x == y)
    && (forall x :: x in t.txns && t.txns[x].stage.Inserted? ==>
          t.txns[x].stage.no == FormatNo(t.prefix, t.txns[x].day, |RowsOf(t, t.txns[x].day)| + 1, t.width))
  }

  ghost predicate Inv(t: Table) {
    Gapless(t) && Distinct(t) && Serial(t)
  }

  lemma {:induction false} NumbersLength(t: Table, day: Day, k: nat)
    ensures |Numbers(t, day, k)| == k
    ensures forall i :: 0 <= i < k ==> Numbers(t, day, k)[i] == FormatNo(t.prefix, day, i + 1, t.width)
  {
    if k > 0 {
      NumbersLength(t, day, k - 1);
    }
  }

  lemma {:induction false} MaxOfNumbers(t: Table, day: Day, k: nat)
    ensures MaxNumber(Numbers(t, day, k)) == k
  {
    if k > 0 {
      MaxOfNumbers(t, day, k - 1);
      FormatReadsBack(t.prefix, day, k, t.width);
      var rows := Numbers(t, day, k);
      assert rows[..|rows| - 1] == Numbers(t, day, k - 1);
    }
  }

  // A formatted number is selected for its own day only.
  lemma LikeSelectsOwnDay(t: Table, day: Day, other: Day, n: nat)
    ensures DayPrefix(t.prefix, other) + "-" <= FormatNo(t.prefix, day, n, t.width) <==> other == day
  {
    var no, key := FormatNo(t.prefix, day, n, t.width), DayPrefix(t.prefix, other);
    var p := |t.prefix| + 1;
    assert no[p..p + 8] == day;
    assert key[p..p + 8] == other;
    if key + "-" <= no {
      assert no[..|key|] == key;
      assert no[p..p + 8] == key[p..p + 8];
    }
  }

  lemma {:induction false} LikeSelects(rows: seq<string>, key: string, s: string)
    requires s in rows && key + "-" <= s
    ensures s in RowsLike(rows, key)
  {
    if s != rows[|rows| - 1] {
      LikeSelects(rows[..|rows| - 1], key, s);
    }
  }

  // The number about to be committed is new.
  lemma NextIsNew(t: Table, day: Day)
    requires Inv(t)
    ensures FormatNo(t.prefix, day, |RowsOf(t, day)| + 1, t.width) !in t.committed
  {
    var k := |RowsOf(t, day)|;
    var no := FormatNo(t.prefix, day, k + 1, t.width);
    if no in t.committed {
      LikeSelectsOwnDay(t, day, day, k + 1);
      LikeSelects(t.committed, DayPrefix(t.prefix, day), no);
      NumbersLength(t, day, k);
      var i :| 0 <= i < k && no == FormatNo(t.prefix, day, i + 1, t.width);
      FormatReadsBack(t.prefix, day, k + 1, t.width);
      FormatReadsBack(t.prefix, day, i + 1, t.width);
      assert false;
    }
  }

  // A commit adds the number to the rows of its own day only.
  lemma CommitAddsToOwnDay(t: Table, id: Id, day: Day)
    requires Serial(t) && Enabled(t, id, Commit)
    ensures var x := t.txns[id];
            RowsOf(Step(t, id, Commit), day) == if day == x.day then RowsOf(t, day) + [x.stage.no] else RowsOf(t, day)
  {
    var u, x := Step(t, id, Commit), t.txns[id];
    assert u.committed[..|u.committed| - 1] == t.committed;
    LikeSelectsOwnDay(t, x.day, day, |RowsOf(t, x.day)| + 1);
  }

  lemma CommitKeepsGapless(t: Table, id: Id)
    requires Gapless(t) && Serial(t) && Enabled(t, id, Commit)
    ensures Gapless(Step(t, id, Commit))
  {
    var u := Step(t, id, Commit);
    forall day: Day ensures RowsOf(u, day) == Numbers(u, day, |RowsOf(u, day)|) {
      CommitAddsToOwnDay(t, id, day);
      assert RowsOf(t, day) == Numbers(t, day, |RowsOf(t, day)|);
      SameNumbers(t, u, day, |RowsOf(t, day)|);
    }
  }

  // Who holds another day's lock has its number drawn from rows that did not change.
  lemma CommitKeepsSerial(t: Table, id: Id)
    requires Serial(t) && Enabled(t, id, Commit)
    ensures Serial(Step(t, id, Commit))
  {
    var u := Step(t, id, Commit);
    forall y | y in u.txns && u.txns[y].stage.Inserted? ensures RowsOf(u, u.txns[y].day) == RowsOf(t, u.txns[y].day) {
      assert y != id && u.txns[y].day != t.txns[id].day;
      CommitAddsToOwnDay(t, id, u.txns[y].day);
    }
  }

  lemma CommitKeepsInv(t: Table, id: Id)
    requires Inv(t) && Enabled(t, id, Commit)
    ensures Inv(Step(t, id, Commit))
  {
    NextIsNew(t, t.txns[id].day);
    CommitKeepsGapless(t, id);
    CommitKeepsSerial(t, id);
  }

  lemma {:induction false} SameNumbers(t: Table, u: Table, day: Day, k: nat)
    requires t.prefix == u.prefix && t.width == u.width
    ensures Numbers(t, day, k) == Numbers(u, day, k)
  {
    if k > 0 {
      SameNumbers(t, u, day, k - 1);
    }
  }

  // Nothing new is committed.
  lemma SameRowsKeepGapless(t: Table, u: Table)
    requires Gapless(t) && u.prefix == t.prefix && u.width == t.width && u.committed == t.committed
    ensures Gapless(u)
  {
    forall day: Day ensures RowsOf(u, day) == Numbers(u, day, |RowsOf(u, day)|) {
      assert RowsOf(u, day) == RowsOf(t, day);
      SameNumbers(t, u, day, |RowsOf(t, day)|);
    }
  }

  lemma DrawnIsNext(t: Table, day: Day)
    requires Gapless(t)
    ensures NextNo(t, day) == FormatNo(t.prefix, day, |RowsOf(t, day)| + 1, t.width)
  {
    assert RowsOf(t, day) == Numbers(t, day, |RowsOf(t, day)|);
    MaxOfNumbers(t, day, |RowsOf(t, day)|);
  }

  lemma InsertKeepsSerial(t: Table, id: Id)
    requires Serial(t) && Enabled(t, id, Insert)
    requires NextNo(t, t.txns[id].day) == FormatNo(t.prefix, t.txns[id].day, |RowsOf(t, t.txns[id].day)| + 1, t.width)
    ensures Serial(Step(t, id, Insert))
  {
    assert forall day: Day :: RowsOf(Step(t, id, Insert), day) == RowsOf(t, day);
  }

  lemma QuietStepKeepsSerial(t: Table, id: Id, a: Action)
    requires Serial(t) && !a.Commit? && !a.Insert?
    ensures Serial(Step(t, id, a))
  {
    assert forall day: Day :: RowsOf(Step(t, id, a), day) == RowsOf(t, day);
  }

  lemma StepKeepsInv(t: Table, id: Id, a: Action)
    requires Inv(t)
    ensures Inv(Step(t, id, a))
  {
    if Enabled(t, id, a) {
      if a.Commit? {
        CommitKeepsInv(t, id);
      } else {
        SameRowsKeepGapless(t, Step(t, id, a));
        if a.Insert? {
          DrawnIsNext(t, t.txns[id].day);
          InsertKeepsSerial(t, id);
        } else {
          QuietStepKeepsSerial(t, id, a);
        }
      }
    }
  }

  /** In every run, rollbacks included, the committed numbers of each day are exactly 1 to k and none repeats. */
  lemma {:induction false} NumbersAreGapless(prefix: string, width: nat, steps: seq<(Id, Action)>)
    ensures Inv(Run(Table(prefix, width, [], map[]), steps))
  {
    var empty := Table(prefix, width, [], map[]);
    if steps == [] {
      forall day: Day ensures RowsOf(empty, day) == [] {
      }
    } else {
      NumbersAreGapless(prefix, width, steps[..|steps| - 1]);
      var last := steps[|steps| - 1];
      StepKeepsInv(Run(empty, steps[..|steps| - 1]), last.0, last.1);
    }
  }
}
