/** The double-entry subledger: accounts, journals, reservations and holds as one state machine. */
module Ledger {
  import opened Results
  import opened Sums
  import opened Text

  datatype Direction = Debit | Credit | OtherDirection

  datatype AccountType = Asset | Expense | Liability | Equity | Income | Contra | Suspense

  /** The side on which an account of this type grows. */
  function Normal(kind: AccountType): Direction {
    if kind.Asset? || kind.Expense? || kind.Suspense? then Debit else Credit
  }

  type Id = string
  type Currency = string

  datatype Entry = Entry(account: Id, direction: Direction, currency: Currency, amount: int)

  datatype JournalState = Draft | Validated | Posted
  datatype Journal = Journal(state: JournalState, reverses: Option<Id>)

  /** One row of the entry table, which keeps the insertion order of all journals. */
  datatype Row = Row(journal: Id, entry: Entry)

  /** `opening` records the balance at creation; nothing else reads it. */
  datatype Account = Account(currency: Currency, kind: AccountType, opening: int, balance: int, reserved: int,
                             version: nat, active: bool)

  datatype FundState = Reserved | Released | Consumed
  datatype Fund = Fund(account: Id, amount: int, state: FundState)

  datatype HoldState = Held | HoldConsumed | HoldReleased | HoldExpired | HoldUnknown
  datatype Hold = Hold(account: Id, amount: int, state: HoldState, version: nat, expiresAt: Option<int>,
                       referenced: bool)

  datatype Books = Books(
    accounts: map<Id, Account>,
    journals: map<Id, Journal>,
    rows: seq<Row>,
    funds: map<Id, Fund>,
    holds: map<Id, Hold>
  )

  const EMPTY := Books(map[], map[], [], map[], map[])

  // ----- entries -----

  function Delta(kind: AccountType, e: Entry): int {
    if e.direction == Normal(kind) then e.amount else -e.amount
  }

  function Side(d: Direction): Entry -> int {
    (e: Entry) => if e.direction == d then e.amount else 0
  }

  /** What an entry moves on one account of this type: debits raise assets, expenses and suspense, credits raise
      liabilities, equity, income and contra. */
  function MoveOn(id: Id, kind: AccountType): Entry -> int {
    (e: Entry) =>
      if e.account != id then 0
      else
        match kind
        case Asset | Expense | Suspense => if e.direction == Debit then e.amount else -e.amount
        case Liability | Equity | Income | Contra => if e.direction == Credit then e.amount else -e.amount
  }

  ghost function Movement(entries: seq<Entry>, id: Id, kind: AccountType): int {
    SumSeq(entries, MoveOn(id, kind))
  }

  predicate OneCurrency(entries: seq<Entry>) {
    entries != [] && forall i :: 0 <= i < |entries| ==> entries[i].currency == entries[0].currency
  }

  /** What `_validate_entries` demands. */
  ghost predicate Balanced(entries: seq<Entry>) {
    && |entries| >= 2
    && OneCurrency(entries)
    && SumSeq(entries, Side(Debit)) > 0
    && SumSeq(entries, Side(Debit)) == SumSeq(entries, Side(Credit))
  }

  /** What the entry table admits. */
  predicate WellFormed(e: Entry) {
    e.direction != OtherDirection && e.amount > 0
  }

  predicate AllWellFormed(entries: seq<Entry>) {
    forall i :: 0 <= i < |entries| ==> WellFormed(entries[i])
  }

  predicate Fits(accounts: map<Id, Account>, e: Entry) {
    && WellFormed(e)
    && e.account in accounts
    && accounts[e.account].active
    && accounts[e.account].currency == e.currency
  }

  predicate AllFit(accounts: map<Id, Account>, entries: seq<Entry>) {
    forall i :: 0 <= i < |entries| ==> Fits(accounts, entries[i])
  }

  /** Applies entries one after the other; the first negative balance refuses the journal. */
  function ApplyEntries(accounts: map<Id, Account>, entries: seq<Entry>): (r: Option<map<Id, Account>>)
    requires AllFit(accounts, entries)
    ensures r.Some? ==> r.value.Keys == accounts.Keys
    decreases |entries|
  {
    if entries == [] then Some(accounts)
    else
      var n := |entries| - 1;
      var e := entries[n];
      match ApplyEntries(accounts, entries[..n])
      case None => None
      case Some(before) =>
        var a := before[e.account];
        var balance := a.balance + Delta(a.kind, e);
        if balance < 0 then None
        else Some(before[e.account := a.(balance := balance, version := a.version + 1)])
  }

  function RowsOf(journal: Id, entries: seq<Entry>): seq<Row> {
    seq(|entries|, i requires 0 <= i < |entries| => Row(journal, entries[i]))
  }

  ghost function PostJournal(b: Books, id: Id, entries: seq<Entry>, reverses: Option<Id>): Result<Books> {
    var _ :- Need(Balanced(entries), Conflict);
    var _ :- Need(id !in b.journals, Conflict);
    if !AllFit(b.accounts, entries) then Err(Conflict)
    else
      match ApplyEntries(b.accounts, entries)
      case None => Err(Conflict)
      case Some(accounts) =>
        Ok(b.(accounts := accounts, journals := b.journals[id := Journal(Posted, reverses)],
              rows := b.rows + RowsOf(id, entries)))
  }

  ghost function CreateDraft(b: Books, id: Id, entries: seq<Entry>): Result<Books> {
    var _ :- Need(id !in b.journals, Conflict);
    var _ :- Need(Balanced(entries), Conflict);
    var _ :- Need(AllWellFormed(entries), IntegrityError);
    Ok(b.(journals := b.journals[id := Journal(Draft, None)], rows := b.rows + RowsOf(id, entries)))
  }

  /** The entries of one journal, in table order. */
  function EntriesOf(rows: seq<Row>, journal: Id): seq<Entry> {
    if rows == [] then []
    else
      var n := |rows| - 1;
      EntriesOf(rows[..n], journal) + if rows[n].journal == journal then [rows[n].entry] else []
  }

  ghost function ValidateJournal(b: Books, id: Id): Result<Books> {
    var _ :- Need(id in b.journals && b.journals[id].state != Posted, Conflict);
    var _ :- Need(Balanced(EntriesOf(b.rows, id)), Conflict);
    Ok(b.(journals := b.journals[id := b.journals[id].(state := Validated)]))
  }

  function Flip(e: Entry): Entry {
    e.(direction := if e.direction == Debit then Credit else Debit)
  }

  function FlipAll(entries: seq<Entry>): seq<Entry> {
    seq(|entries|, i requires 0 <= i < |entries| => Flip(entries[i]))
  }

  /** `readback` is the order in which the query happens to return the journal's entries. */
  ghost function ReverseJournal(b: Books, id: Id, reversal: Id, readback: seq<Entry>, justified: bool): Result<Books> {
    var _ :- Need(id in b.journals && b.journals[id].state == Posted, Conflict);
    var _ :- Need(justified, Conflict);
    PostJournal(b, reversal, FlipAll(readback), Some(id))
  }

  // ----- multi-currency postings -----

  function Group(entries: seq<Entry>, c: Currency): seq<Entry> {
    if entries == [] then []
    else
      var n := |entries| - 1;
      Group(entries[..n], c) + if entries[n].currency == c then [entries[n]] else []
  }

  /** Lexicographic order of currency codes. */
  predicate Less(a: Currency, b: Currency) {
    b != [] && (a == [] || a[0] < b[0] || (a[0] == b[0] && Less(a[1..], b[1..])))
  }

  function Insert(cs: seq<Currency>, c: Currency): seq<Currency> {
    if cs == [] then [c]
    else if c == cs[0] then cs
    else if Less(c, cs[0]) then [c] + cs
    else [cs[0]] + Insert(cs[1..], c)
  }

  /** The currencies of a posting, sorted and without repetition. */
  function Currencies(entries: seq<Entry>): seq<Currency> {
    if entries == [] then [] else Insert(Currencies(entries[..|entries| - 1]), entries[|entries| - 1].currency)
  }

  predicate HasClearingLeg(group: seq<Entry>, clearing: Id) {
    exists i :: 0 <= i < |group| && group[i].account == clearing
  }

  ghost function PostGroups(b: Books, id: Id, currencies: seq<Currency>, entries: seq<Entry>,
                            clearing: map<Currency, Id>): Result<Books>
    decreases |currencies|
  {
    if currencies == [] then Ok(b)
    else
      var c := currencies[0];
      var group := Group(entries, c);
      if c !in clearing || clearing[c] == "" || !HasClearingLeg(group, clearing[c]) then Err(Conflict)
      else
        var b1 :- PostJournal(b, id + ":" + c, group, None);
        PostGroups(b1, id, currencies[1..], entries, clearing)
  }

  ghost function PostMultiCurrency(b: Books, id: Id, entries: seq<Entry>, clearing: map<Currency, Id>): Result<Books> {
    var currencies := Currencies(entries);
    var _ :- Need(|currencies| >= 2, Conflict);
    PostGroups(b, id, currencies, entries, clearing)
  }

  // ----- reservations and holds -----

  function CreateAccount(b: Books, id: Id, currency: Currency, kind: AccountType, opening: int): Result<Books> {
    var _ :- Need(opening >= 0, Conflict);
    var _ :- Need(id !in b.accounts, Conflict);
    Ok(b.(accounts := b.accounts[id := Account(currency, kind, opening, opening, 0, 1, true)]))
  }

  function WithReserved(b: Books, id: Id, amount: int): Books
    requires id in b.accounts
  {
    b.(accounts := b.accounts[id := b.accounts[id].(reserved := b.accounts[id].reserved + amount)])
  }

  /** An existing reservation of that id is returned as it is. */
  function ReserveFunds(b: Books, account: Id, id: Id, amount: int, currency: Currency): Result<Books> {
    if account !in b.accounts || !b.accounts[account].active || b.accounts[account].currency != currency
    then Err(Conflict)
    else if id in b.funds then Ok(b)
    else if amount <= 0 || b.accounts[account].balance - b.accounts[account].reserved < amount then Err(Conflict)
    else Ok(WithReserved(b, account, amount).(funds := b.funds[id := Fund(account, amount, Reserved)]))
  }

  function Max(a: int, b: int): int {
    if a >= b then a else b
  }

  function ReleaseFunds(b: Books, id: Id): Result<Books> {
    if id !in b.funds then Err(NoRow)
    else if b.funds[id].state != Reserved then Ok(b)
    else
      var f := b.funds[id];
      if f.account !in b.accounts then Err(NoRow)
      else
        var a := b.accounts[f.account];
        Ok(b.(accounts := b.accounts[f.account := a.(reserved := Max(0, a.reserved - f.amount))],
              funds := b.funds[id := f.(state := Released)]))
  }

  /** The database refuses a negative balance. */
  function ConsumeFunds(b: Books, id: Id): Result<Books> {
    if id !in b.funds then Err(NoRow)
    else if b.funds[id].state != Reserved then Ok(b)
    else
      var f := b.funds[id];
      if f.account !in b.accounts then Err(NoRow)
      else
        var a := b.accounts[f.account];
        if a.balance - f.amount < 0 then Err(IntegrityError)
        else
          Ok(b.(accounts := b.accounts[f.account := a.(reserved := Max(0, a.reserved - f.amount),
                                                       balance := a.balance - f.amount)],
                funds := b.funds[id := f.(state := Consumed)]))
  }

  function CreateHold(b: Books, id: Id, account: Id, amount: int, currency: Currency,
                      expiresAt: Option<int>): Result<Books> {
    if amount <= 0 then Err(Conflict)
    else if account !in b.accounts || !b.accounts[account].active || b.accounts[account].currency != Upper(currency)
            || b.accounts[account].balance - b.accounts[account].reserved < amount then Err(Conflict)
    else if id in b.holds then Err(Conflict)
    else Ok(WithReserved(b, account, amount).(holds := b.holds[id := Hold(account, amount, Held, 1, expiresAt, false)]))
  }

  function MoveHold(b: Books, id: Id, state: HoldState, expected: int): Result<Books> {
    if id !in b.holds || b.holds[id].version != expected then Err(Conflict)
    else if state == Held || b.holds[id].state != Held then Err(Conflict)
    else
      var h := b.holds[id];
      var moved := b.(holds := b.holds[id := h.(state := state, version := h.version + 1)]);
      if state == HoldUnknown then Ok(moved)
      else if h.account !in b.accounts then Err(NoRow)
      else Ok(WithReserved(moved, h.account, -h.amount))
  }

  predicate Due(h: Hold, now: int) {
    h.state == Held && h.expiresAt.Some? && h.expiresAt.value <= now
  }

  function Expiry(h: Hold): HoldState {
    if h.referenced then HoldExpired else HoldUnknown
  }

  // ----- the state machine -----

  datatype Op =
    | OpenAccount(id: Id, currency: Currency, kind: AccountType, opening: int)
    | SetActive(id: Id, active: bool)
    | Post(id: Id, entries: seq<Entry>)
    | PostMulti(id: Id, entries: seq<Entry>, clearing: map<Currency, Id>)
    | MakeDraft(id: Id, entries: seq<Entry>)
    | Validate(id: Id)
    | Reverse(id: Id, reversal: Id, readback: seq<Entry>, justified: bool)
    | Reserve(account: Id, id: Id, amount: int, currency: Currency)
    | Release(id: Id)
    | Consume(id: Id)
    | PlaceHold(id: Id, account: Id, amount: int, currency: Currency, expiresAt: Option<int>)
    | ChangeHold(id: Id, state: HoldState, expected: int)
    | ReferenceHold(id: Id)

  ghost function Attempt(b: Books, op: Op): Result<Books> {
    match op
    case OpenAccount(id, currency, kind, opening) => CreateAccount(b, id, currency, kind, opening)
    case SetActive(id, active) =>
      if id in b.accounts then Ok(b.(accounts := b.accounts[id := b.accounts[id].(active := active)])) else Err(NoRow)
    case Post(id, entries) => PostJournal(b, id, entries, None)
    case PostMulti(id, entries, clearing) => PostMultiCurrency(b, id, entries, clearing)
    case MakeDraft(id, entries) => CreateDraft(b, id, entries)
    case Validate(id) => ValidateJournal(b, id)
    case Reverse(id, reversal, readback, justified) =>
      if multiset(readback) != multiset(EntriesOf(b.rows, id)) then Err(NoRow)
      else ReverseJournal(b, id, reversal, readback, justified)
    case Reserve(account, id, amount, currency) => ReserveFunds(b, account, id, amount, currency)
    case Release(id) => ReleaseFunds(b, id)
    case Consume(id) => ConsumeFunds(b, id)
    case PlaceHold(id, account, amount, currency, expiresAt) => CreateHold(b, id, account, amount, currency, expiresAt)
    case ChangeHold(id, state, expected) => MoveHold(b, id, state, expected)
    case ReferenceHold(id) =>
      if id in b.holds then Ok(b.(holds := b.holds[id := b.holds[id].(referenced := true)])) else Err(NoRow)
  }

  /** A refused request leaves the books as they were. */
  ghost function Apply(b: Books, op: Op): Books {
    var r := Attempt(b, op);
    if r.Ok? then r.value else b
  }

  ghost function Run(b: Books, ops: seq<Op>): Books
    decreases |ops|
  {
    if ops == [] then b else Apply(Run(b, ops[..|ops| - 1]), ops[|ops| - 1])
  }
}
