/** Runs that show what the theorems are about, from the initial state on. */
module Witnesses {
  import opened Text
  import opened Domain
  import opened Commands
  import opened Store
  import opened Bank
  import opened Protocol
  import opened Safety
  import opened Leases
  import opened Paths
  import opened Progress

  // ---- Names ----

  /** A payment id made of one hexadecimal digit. */
  function IdOf(c: char): string
    requires IsHexDigit(c)
  {
    "pay_" + seq(36, i => if i in {8, 13, 18, 23} then '-' else c)
  }

  lemma IdIsOk(c: char)
    requires IsHexDigit(c)
    ensures IsPaymentId(IdOf(c)) && Clean(IdOf(c)) && IdOf(c)[4] == c
  {
    var id := IdOf(c);
    assert id[..4] == "pay_";
    assert id[0] == 'p' && id[39] == c;
  }

  /** A one-letter name. */
  function NameOf(c: char): string {
    [c]
  }

  lemma NameIsOk(c: char)
    requires !IsSpace(c)
    ensures Clean(NameOf(c))
  {
  }

  lemma IdsAreNotNames(c: char, d: char)
    requires IsHexDigit(c)
    ensures IdOf(c) != NameOf(d)
  {
    assert |IdOf(c)| == 40;
  }

  // ---- The first state ----

  function FirstState(cfg: Config): State {
    State(1, Db(map[], map[]), map[], 1, Ledger(cfg.accounts, map[], [], map[]), map[], [], [], {}, map[], map[], map[],
          map[])
  }

  lemma FirstStateReached(cfg: Config, timely: bool)
    ensures CanReach(cfg, timely, FirstState(cfg))
  {
    hide Next, TimelyNext;
    var s := FirstState(cfg);
    assert IsRun(cfg, [s]);
    assert IsTimelyRun(cfg, [s]);
  }

  // ---- The life of a payment ----

  /** The names of the `n`th command of a run; `id` is a hexadecimal digit, `key` and `txn` are letters. */
  function DrawOf(n: nat, id: char, key: char, txn: char, today: YearMonth): Draw
    requires IsHexDigit(id)
  {
    Draw(n, IdOf(id), NameOf(key), NameOf(txn), today)
  }

  predicate Visible(c: char) {
    !IsSpace(c)
  }

  /** Names of commands with different digits and letters do not collide with what earlier commands drew. */
  lemma Draws(s: State, n: nat, id: char, key: char, txn: char, today: YearMonth, cmd: Command)
    requires IsHexDigit(id) && Visible(key) && Visible(txn) && n !in s.workers && Accepted(cmd)
    requires IdOf(id) !in s.issued && NameOf(key) !in s.issued && NameOf(txn) !in s.ledger.txns
    requires RecordKey(OpOf(cmd), cmd.key) !in s.db.records
    ensures Unused(s, DrawOf(n, id, key, txn, today), cmd)
  {
    hide Accepted, IdOf, IsPaymentId;
    IdIsOk(id);
    NameIsOk(key);
    NameIsOk(txn);
    IdsAreNotNames(id, key);
  }

  function OpenBank(cfg: Config): Ledger {
    Ledger(cfg.accounts, map[], [], map[])
  }

  function FirstCommand(card: Card, amount: int): Command {
    Authorize("o", "c", amount, card, "k")
  }

  lemma FirstCommandAccepted(card: Card, amount: int)
    requires AcceptedCard(card) && amount > 0
    ensures Accepted(FirstCommand(card, amount))
  {
    hide AcceptedCard;
  }

  lemma FollowUpsAccepted(id: string)
    requires IsPaymentId(id)
    ensures Accepted(Capture(id, "k")) && Accepted(Void(id, "k")) && Accepted(Refund(id, "k"))
  {
    hide IsPaymentId;
  }

  lemma LettersAreVisible()
    ensures Visible('a') && Visible('b') && Visible('c') && Visible('t') && Visible('u') && Visible('v')
  {
  }

  /** Exactly these workers, names, keys and ledger ids are in use. */
  predicate InUse(s: State, workers: set<nat>, names: set<string>, keys: set<RecordKey>, txns: set<string>) {
    s.workers.Keys == workers && s.issued == names && s.db.records.Keys == keys && s.ledger.txns.Keys == txns
  }

  lemma Begins(cfg: Config, timely: bool, card: Card, amount: int, today: YearMonth) returns (s1: State)
    requires ValidConfig(cfg) && (timely ==> 0 <= cfg.timeout) && 0 <= cfg.holdFor
    requires AcceptedCard(card) && Approvable(OpenBank(cfg), card, amount, today)
    ensures CanReach(cfg, timely, s1) && Leads(cfg, timely, FirstState(cfg), s1) && OpenHold(s1, IdOf('1'))
    ensures InUse(s1, {0}, {IdOf('1'), NameOf('a')}, {RecordKey(AuthorizeOp, "k")}, {NameOf('t')})
  {
    hide ValidConfig, CanReach, Leads, Accepted, AcceptedCard, IdOf, NameOf, Visible, Unused, OpenHold, Approvable;
    var s0 := FirstState(cfg);
    LettersAreVisible();
    PositiveAmount(OpenBank(cfg), card, amount, today);
    FirstCommandAccepted(card, amount);
    FirstStateReached(cfg, timely);
    var cmd := FirstCommand(card, amount);
    Draws(s0, 0, '1', 'a', 't', today, cmd);
    s1 := AuthorizeCanComplete(cfg, timely, s0, DrawOf(0, '1', 'a', 't', today), cmd);
  }

  lemma Continues(cfg: Config, timely: bool, s1: State, today: YearMonth) returns (s2: State)
    requires ValidConfig(cfg) && (timely ==> 0 <= cfg.timeout) && CanReach(cfg, timely, s1) && OpenHold(s1, IdOf('1'))
    requires InUse(s1, {0}, {IdOf('1'), NameOf('a')}, {RecordKey(AuthorizeOp, "k")}, {NameOf('t')})
    ensures CanReach(cfg, timely, s2) && Leads(cfg, timely, s1, s2) && Refundable(s2, IdOf('1'))
    ensures InUse(s2, {0, 1}, {IdOf('1'), NameOf('a'), IdOf('2'), NameOf('b')},
                  {RecordKey(AuthorizeOp, "k"), RecordKey(CaptureOp, "k")}, {NameOf('t'), NameOf('u')})
  {
    hide ValidConfig, CanReach, Leads, Accepted, IdOf, NameOf, IsPaymentId, Visible, Unused, OpenHold, Refundable;
    LettersAreVisible();
    NamesDiffer();
    IdIsOk('1');
    FollowUpsAccepted(IdOf('1'));
    var cmd := Capture(IdOf('1'), "k");
    Draws(s1, 1, '2', 'b', 'u', today, cmd);
    s2 := CaptureCanComplete(cfg, timely, s1, DrawOf(1, '2', 'b', 'u', today), cmd);
  }

  lemma Ends(cfg: Config, timely: bool, s2: State, today: YearMonth) returns (s3: State)
    requires ValidConfig(cfg) && (timely ==> 0 <= cfg.timeout) && CanReach(cfg, timely, s2) && Refundable(s2, IdOf('1'))
    requires InUse(s2, {0, 1}, {IdOf('1'), NameOf('a'), IdOf('2'), NameOf('b')},
                   {RecordKey(AuthorizeOp, "k"), RecordKey(CaptureOp, "k")}, {NameOf('t'), NameOf('u')})
    ensures CanReach(cfg, timely, s3) && Leads(cfg, timely, s2, s3)
    ensures IdOf('1') in s3.db.payments && s3.db.payments[IdOf('1')].status == Refunded
  {
    hide ValidConfig, CanReach, Leads, Accepted, IdOf, NameOf, IsPaymentId, Visible, Unused, Refundable;
    LettersAreVisible();
    NamesDiffer();
    IdIsOk('1');
    FollowUpsAccepted(IdOf('1'));
    var cmd := Refund(IdOf('1'), "k");
    Draws(s2, 2, '3', 'c', 'v', today, cmd);
    s3 := RefundCanComplete(cfg, timely, s2, DrawOf(2, '3', 'c', 'v', today), cmd);
  }

  lemma EndsEarly(cfg: Config, timely: bool, s1: State, today: YearMonth) returns (s4: State)
    requires ValidConfig(cfg) && (timely ==> 0 <= cfg.timeout) && CanReach(cfg, timely, s1) && OpenHold(s1, IdOf('1'))
    requires InUse(s1, {0}, {IdOf('1'), NameOf('a')}, {RecordKey(AuthorizeOp, "k")}, {NameOf('t')})
    ensures CanReach(cfg, timely, s4) && Leads(cfg, timely, s1, s4)
    ensures IdOf('1') in s4.db.payments && s4.db.payments[IdOf('1')].status == Voided
  {
    hide ValidConfig, CanReach, Leads, Accepted, IdOf, NameOf, IsPaymentId, Visible, Unused, OpenHold, UnusedHold;
    LettersAreVisible();
    NamesDiffer();
    IdIsOk('1');
    FollowUpsAccepted(IdOf('1'));
    OpenIsUnused(s1, IdOf('1'));
    var cmd := Void(IdOf('1'), "k");
    Draws(s1, 1, '2', 'b', 'u', today, cmd);
    s4 := VoidCanComplete(cfg, timely, s1, DrawOf(1, '2', 'b', 'u', today), cmd);
  }

  lemma OpenIsUnused(s: State, id: string)
    requires OpenHold(s, id)
    ensures UnusedHold(s, id)
  {
  }

  /**
   * For every configuration with an account that can pay, runs, and timely runs, take a payment from nothing to
   * authorized, captured and refunded, or from authorized to voided.
   */
  lemma LifeOfAPayment(cfg: Config, timely: bool, card: Card, amount: int, today: YearMonth)
    returns (s1: State, s2: State, s3: State, s4: State)
    requires ValidConfig(cfg) && (timely ==> 0 <= cfg.timeout) && 0 <= cfg.holdFor
    requires AcceptedCard(card) && Approvable(OpenBank(cfg), card, amount, today)
    ensures CanReach(cfg, timely, s1) && CanReach(cfg, timely, s2) && CanReach(cfg, timely, s3) && CanReach(cfg, timely, s4)
    ensures Leads(cfg, timely, FirstState(cfg), s1) && Leads(cfg, timely, s1, s2) && Leads(cfg, timely, s2, s3)
    ensures Leads(cfg, timely, s1, s4) && IdOf('1') in s4.db.payments && s4.db.payments[IdOf('1')].status == Voided
    ensures OpenHold(s1, IdOf('1')) && Refundable(s2, IdOf('1'))
    ensures IdOf('1') in s3.db.payments && s3.db.payments[IdOf('1')].status == Refunded
  {
    hide ValidConfig, CanReach, Leads, AcceptedCard, IdOf, NameOf, OpenHold, Refundable, Approvable, InUse;
    s1 := Begins(cfg, timely, card, amount, today);
    s2 := Continues(cfg, timely, s1, today);
    s3 := Ends(cfg, timely, s2, today);
    s4 := EndsEarly(cfg, timely, s1, today);
  }

  lemma PositiveAmount(l: Ledger, card: Card, amount: int, today: YearMonth)
    requires Approvable(l, card, amount, today)
    ensures amount > 0
  {
  }

  /** Different digits and letters give different names. */
  lemma NamesDiffer()
    ensures forall c, d | IsHexDigit(c) && IsHexDigit(d) :: IdOf(c) == IdOf(d) ==> c == d
    ensures forall c, d :: NameOf(c) == NameOf(d) ==> c == d
    ensures forall c, d | IsHexDigit(c) :: IdOf(c) != NameOf(d)
  {
    forall c, d | IsHexDigit(c) && IsHexDigit(d) && IdOf(c) == IdOf(d) ensures c == d {
      IdIsOk(c);
      IdIsOk(d);
    }
    forall c, d | NameOf(c) == NameOf(d) ensures c == d {
      assert NameOf(c)[0] == c;
    }
    forall c, d | IsHexDigit(c) ensures IdOf(c) != NameOf(d) {
      IdsAreNotNames(c, d);
    }
  }

  // ---- A configuration in which all this happens ----

  /** Thirteen zeros pass the Luhn check. */
  lemma {:induction false} ZerosAccepted(n: nat)
    ensures |Luhn.Digits(seq(n, i => '0'))| == n && Luhn.LuhnSum(Luhn.Digits(seq(n, i => '0'))) == 0
  {
    var s := seq(n, i => '0');
    if n > 0 {
      assert s[1..] == seq(n - 1, i => '0');
      ZerosAccepted(n - 1);
      assert Luhn.Digits(s) == [0] + Luhn.Digits(s[1..]);
    }
  }

  function ZeroCard(): Card {
    Card(seq(13, i => '0'), "000", 1, 1)
  }

  lemma ZeroCardAccepted()
    ensures AcceptedCard(ZeroCard()) && Luhn.Accepts(ZeroCard().number)
  {
    ZerosPass();
    hide Luhn.Accepts;
    var card := ZeroCard();
    assert forall i :: 0 <= i < 13 ==> IsDigit(card.number[i]);
  }

  lemma ZerosPass()
    ensures Luhn.Accepts(seq(13, i => '0'))
  {
    hide Luhn.Digits, Luhn.LuhnSum;
    ZerosAccepted(13);
  }

  /** A digest that keeps its text in brackets is collision-free and visible. */
  lemma BracketsAreValid(mac: string -> string)
    requires forall text: string :: mac(text) == "<" + text + ">"
    ensures forall a: string, b: string :: mac(a) == mac(b) ==> a == b
    ensures forall a: string :: Clean(mac(a))
  {
    forall a: string, b: string | mac(a) == mac(b) ensures a == b {
      assert mac(a)[1..|a| + 1] == a && mac(b)[1..|b| + 1] == b;
    }
  }

  /** The card's one account can pay one cent. */
  function PayingConfig(mac: string -> string, stuckAfter: int, timeout: int, holdFor: int): Config {
    Config(mac, stuckAfter, timeout, holdFor, map[ZeroCard().number := Account("000", 1, 1, 1, 1)])
  }

  lemma PayingConfigOk(mac: string -> string, stuckAfter: int, timeout: int, holdFor: int)
    requires forall text: string :: mac(text) == "<" + text + ">"
    ensures var cfg := PayingConfig(mac, stuckAfter, timeout, holdFor);
            ValidConfig(cfg) && Approvable(OpenBank(cfg), ZeroCard(), 1, YearMonth(1, 1))
  {
    hide Luhn.Accepts, Clean;
    ZeroCardAccepted();
    BracketsAreValid(mac);
    assert ValidCvv("000");
  }

  /**
   * Whatever the durations, there is a configuration that meets every assumption, with runs and timely runs that reach
   * payments of each kind.
   */
  lemma RunsExist(stuckAfter: int, timeout: int, holdFor: int)
    returns (cfg: Config, s1: State, s2: State, s3: State, s4: State)
    requires 0 <= timeout && 0 <= holdFor
    ensures ValidConfig(cfg) && cfg.stuckAfter == stuckAfter && cfg.timeout == timeout && cfg.holdFor == holdFor
    ensures TimelyReachable(cfg, s1) && TimelyReachable(cfg, s2) && TimelyReachable(cfg, s3) && TimelyReachable(cfg, s4)
    ensures Reachable(cfg, s1) && Reachable(cfg, s2) && Reachable(cfg, s3) && Reachable(cfg, s4)
    ensures OpenHold(s1, IdOf('1')) && Refundable(s2, IdOf('1'))
    ensures IdOf('1') in s3.db.payments && s3.db.payments[IdOf('1')].status == Refunded
    ensures IdOf('1') in s4.db.payments && s4.db.payments[IdOf('1')].status == Voided
  {
    hide ValidConfig, IdOf, OpenHold, Refundable, TimelyReachable, Reachable, AcceptedCard, Approvable, ZeroCard, Leads;
    var mac := (text: string) => "<" + text + ">";
    cfg := PayingConfig(mac, stuckAfter, timeout, holdFor);
    PayingConfigOk(mac, stuckAfter, timeout, holdFor);
    ZeroCardAccepted();
    s1, s2, s3, s4 := LifeOfAPayment(cfg, true, ZeroCard(), 1, YearMonth(1, 1));
    TimelyIsReachable(cfg, s1);
    TimelyIsReachable(cfg, s2);
    TimelyIsReachable(cfg, s3);
    TimelyIsReachable(cfg, s4);
  }
}
