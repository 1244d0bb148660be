/** The wallet page of the admin portal (`WalletTransactions`): the
    transaction list, the credit and debit classification of transaction
    types, and the totals. */
module Wallet {
  import opened Common
  import opened Tables

  /** The WHERE clause: a search term must occur in the driver reference or
      the description; a type or status other than `all` must match. */
  predicate Matches(t: WalletTransaction, search: string, typeFilter: string, statusFilter: string) {
    && (search == "" || ILike(t.driverPhoneRef, search) || ILike(t.description, search))
    && (typeFilter == "all" || t.kind == typeFilter)
    && (statusFilter == "all" || t.status == Some(statusFilter))
  }

  /** The list query: matching transactions, newest first, at most 200. */
  function TransactionQuery(ts: seq<WalletTransaction>, search: string, typeFilter: string, statusFilter: string)
    : (r: seq<WalletTransaction>)
    ensures |r| <= 200
    ensures SortedBy(r, (t: WalletTransaction) => t.createdAt, Desc)
  {
    var ordered := OrderBy(Filter(ts, (t: WalletTransaction) => Matches(t, search, typeFilter, statusFilter)),
                           (t: WalletTransaction) => t.createdAt, Desc);
    Take(ordered, 200)
  }

  /** Every listed transaction is stored and matches the filters, and when at
      most 200 match, every matching transaction is listed. */
  lemma TransactionQueryMatches(ts: seq<WalletTransaction>, search: string, typeFilter: string, statusFilter: string,
                                t: WalletTransaction)
    ensures t in TransactionQuery(ts, search, typeFilter, statusFilter) ==> t in ts && Matches(t, search, typeFilter, statusFilter)
    ensures Count(ts, (x: WalletTransaction) => Matches(x, search, typeFilter, statusFilter)) <= 200 ==>
              (t in TransactionQuery(ts, search, typeFilter, statusFilter) <==> t in ts && Matches(t, search, typeFilter, statusFilter))
  {
    TopRowsSelection(ts, (t: WalletTransaction) => Matches(t, search, typeFilter, statusFilter),
                     (t: WalletTransaction) => t.createdAt, Desc, 200, t);
  }

  /** Types that add to a wallet. */
  predicate IsCreditType(kind: string) {
    kind in ["credit", "trip_earning", "bonus"]
  }

  /** Types that take from a wallet. */
  predicate IsDebitType(kind: string) {
    kind in ["debit", "commission", "withdrawal"]
  }

  /** No type is both a credit and a debit. */
  lemma CreditDebitDisjoint(kind: string)
    ensures !(IsCreditType(kind) && IsDebitType(kind))
  {
  }

  predicate IsCompleted(t: WalletTransaction) {
    t.status == Some("completed")
  }

  function Amount(t: WalletTransaction): real {
    t.amount
  }

  /** `totalCredits`: the completed transactions of a credit type. */
  function TotalCredits(ts: seq<WalletTransaction>): real {
    SumOf(Filter(ts, (t: WalletTransaction) => IsCreditType(t.kind) && IsCompleted(t)), Amount)
  }

  /** `totalDebits`: the completed transactions of a debit type. */
  function TotalDebits(ts: seq<WalletTransaction>): real {
    SumOf(Filter(ts, (t: WalletTransaction) => IsDebitType(t.kind) && IsCompleted(t)), Amount)
  }

  /** A transaction adds its amount to the credit total when it is a completed
      credit, to the debit total when it is a completed debit, and to neither
      otherwise: pending and failed transactions, and unknown types, are never
      counted. With no transactions both totals are zero. */
  lemma TotalsByTransaction(ts: seq<WalletTransaction>, t: WalletTransaction)
    ensures TotalCredits([]) == 0.0 && TotalDebits([]) == 0.0
    ensures TotalCredits(ts + [t]) == TotalCredits(ts) + (if IsCreditType(t.kind) && IsCompleted(t) then t.amount else 0.0)
    ensures TotalDebits(ts + [t]) == TotalDebits(ts) + (if IsDebitType(t.kind) && IsCompleted(t) then t.amount else 0.0)
  {
    var c := (t: WalletTransaction) => IsCreditType(t.kind) && IsCompleted(t);
    var d := (t: WalletTransaction) => IsDebitType(t.kind) && IsCompleted(t);
    FilterConcat(ts, [t], c);
    FilterConcat(ts, [t], d);
    SumOfConcat(Filter(ts, c), Filter([t], c), Amount);
    SumOfConcat(Filter(ts, d), Filter([t], d), Amount);
  }

  /** `totalWalletBalance`: a missing balance counts as zero. */
  function TotalWalletBalance(drivers: seq<Driver>): real {
    SumOf(drivers, (d: Driver) => d.walletBalance.GetOr(0.0))
  }

  /** Adding a driver adds its balance, or nothing when it has none. */
  lemma WalletBalanceByDriver(drivers: seq<Driver>, d: Driver)
    ensures TotalWalletBalance(drivers + [d]) == TotalWalletBalance(drivers) + (if d.walletBalance.Some? then d.walletBalance.value else 0.0)
  {
    SumOfConcat(drivers, [d], (d: Driver) => d.walletBalance.GetOr(0.0));
  }

  /** The sign in front of an amount. */
  function Sign(kind: string): (c: char)
    ensures c == '+' <==> IsCreditType(kind)
    ensures c == '-' <==> !IsCreditType(kind)
  {
    if IsCreditType(kind) then '+' else '-'
  }

  datatype Colour = Green | Red | Gray

  /** `getTransactionColor` */
  function AmountColour(kind: string): (c: Colour)
    ensures c == Green <==> IsCreditType(kind)
    ensures c == Red <==> IsDebitType(kind)
  {
    if IsCreditType(kind) then Green else if IsDebitType(kind) then Red else Gray
  }

  /** Sign and colour agree for the known types, but a transaction of an
      unknown type is shown in gray with a minus sign, as if it were a debit
      that no total counts. */
  lemma SignAndColour(kind: string)
    ensures IsCreditType(kind) ==> Sign(kind) == '+' && AmountColour(kind) == Green
    ensures IsDebitType(kind) ==> Sign(kind) == '-' && AmountColour(kind) == Red
    ensures !IsCreditType(kind) && !IsDebitType(kind) ==> Sign(kind) == '-' && AmountColour(kind) == Gray
  {
  }
}
