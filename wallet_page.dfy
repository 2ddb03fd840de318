/** The wallet page (src/pages/Wallet.tsx): how a transaction row is drawn
    (icon, colour, sign, title), the levels computed and shown beside the
    scores, and the history tab that refetches through the wallet hook. */
module WalletPage {
  import opened Wrappers
  import opened Text
  import opened Ledger
  import opened UseWallet
  import opened UseUserScores

  /** The icon drawn at the start of a transaction row. */
  datatype Icon = ArrowUpRight | ArrowDownLeft | WalletGlyph

  /** `getTransactionIcon`: up for money in, down for money out, the wallet
      glyph for any other type text. */
  function TransactionIcon(kind: string): (icon: Icon)
    ensures icon == ArrowUpRight <==> kind in {"top_up", "earning", "refund"}
    ensures icon == ArrowDownLeft <==> kind in {"spending", "withdrawal"}
  {
    if kind == "top_up" || kind == "earning" || kind == "refund" then ArrowUpRight
    else if kind == "spending" || kind == "withdrawal" then ArrowDownLeft
    else WalletGlyph
  }

  /** `getTransactionColor`: green for money in, red for money out, the
      foreground colour otherwise. */
  function TransactionColor(kind: string): (color: string)
    ensures color == "text-green-500" <==> kind in {"top_up", "earning", "refund"}
    ensures color == "text-red-500" <==> kind in {"spending", "withdrawal"}
  {
    if kind == "top_up" || kind == "earning" || kind == "refund" then "text-green-500"
    else if kind == "spending" || kind == "withdrawal" then "text-red-500"
    else "text-foreground"
  }

  /** The sign written before the amount. */
  function AmountSign(kind: string): (sign: char)
    ensures sign == '-' || sign == '+'
  {
    if kind == "spending" || kind == "withdrawal" then '-' else '+'
  }

  /** The icon and the colour classify a type text the same way. */
  lemma IconAgreesWithColour(kind: string)
    ensures TransactionIcon(kind) == ArrowUpRight <==> TransactionColor(kind) == "text-green-500"
    ensures TransactionIcon(kind) == ArrowDownLeft <==> TransactionColor(kind) == "text-red-500"
    ensures TransactionIcon(kind) == WalletGlyph <==> TransactionColor(kind) == "text-foreground"
  {
  }

  /** The amount is negative exactly when it is drawn red. */
  lemma SignAgreesWithColour(kind: string)
    ensures AmountSign(kind) == '-' <==> TransactionColor(kind) == "text-red-500"
  {
  }

  /** For the five declared types the sign follows the history tabs: '-' for
      the types the spending tab selects, '+' for those the earning tab
      selects, and no declared type falls to the neutral icon. */
  lemma SignFollowsFilterTabs(t: TxType)
    ensures AmountSign(TypeName(t)) == '-' <==> Selects(Some(SpendingTypes), t)
    ensures AmountSign(TypeName(t)) == '+' <==> Selects(Some(EarningTypes), t)
    ensures TransactionIcon(TypeName(t)) != WalletGlyph
  {
  }

  /** The label used when a row has no description: the type text with its
      first '_' turned into a space, in upper case. */
  function FallbackLabel(kind: string): (shown: string)
    ensures |shown| == |kind|
    ensures '_' in kind ==> shown[IndexOf(kind, '_')] == ' '
    ensures forall i :: 0 <= i < |kind| && i != IndexOf(kind, '_') ==> shown[i] == UpperChar(kind[i])
  {
    ToUpperCase(ReplaceFirst(kind, '_', ' '))
  }

  /** A type text with its first '_' between `a` and `b` is labelled as
      the upper-cased `a`, a space, and the upper-cased `b`. */
  lemma FallbackLabelAtUnderscore(a: string, b: string)
    requires '_' !in a
    ensures FallbackLabel(a + ['_'] + b) == ToUpperCase(a) + [' '] + ToUpperCase(b)
  {
    var kind := a + ['_'] + b;
    IndexOfJoin(a, b, '_');
    assert IndexOf(kind, '_') == |a|;
    var shown := FallbackLabel(kind);
    var upperA, upperB := ToUpperCase(a), ToUpperCase(b);
    var expected := upperA + [' '] + upperB;
    assert |shown| == |expected|;
    forall i | 0 <= i < |kind|
      ensures shown[i] == expected[i]
    {
      if i < |a| {
        assert kind[i] == a[i] && expected[i] == upperA[i];
      } else if i > |a| {
        assert kind[i] == b[i - |a| - 1] && expected[i] == upperB[i - |a| - 1];
      }
    }
  }

  lemma FallbackLabelOfTopUp()
    ensures FallbackLabel("top_up") == "TOP UP"
  {
    assert "top_up" == "top" + ['_'] + "up";
    FallbackLabelAtUnderscore("top", "up");
  }

  /** The title of a row: its description when it is non-empty. */
  function Title(description: Option<string>, kind: string): (title: string)
    ensures description.Some? && description.value != "" ==> title == description.value
    ensures description.None? || description.value == "" ==> title == FallbackLabel(kind)
  {
    if description.Some? && description.value != "" then description.value else FallbackLabel(kind)
  }

  /** The two levels the page computes: those of the scores row, or Newbie
      and Inactive without one. */
  function ComputedLevels(scores: Option<UserScores>): (levels: (Level, Level))
    ensures levels.0.level in CribnNames && levels.1.level in RunnerNames
    ensures scores.Some? ==> levels == (GetCribnLevel(scores.value.cribnScore), GetRunnerLevel(scores.value.runnerScore))
  {
    if scores.Some? then (GetCribnLevel(scores.value.cribnScore), GetRunnerLevel(scores.value.runnerScore))
    else (Level("Newbie", "text-gray-500"), Level("Inactive", "text-gray-500"))
  }

  /** The badges drawn in the scores card: the cribn level always, the
      runner level only for a scores row with at least one errand done. */
  function ShownLevels(scores: Option<UserScores>): (shown: (Level, Option<Level>))
    ensures shown.0 == ComputedLevels(scores).0
    ensures shown.1.Some? <==> scores.Some? && scores.value.errandsCompleted > 0
    ensures shown.1.Some? ==> shown.1.value == GetRunnerLevel(scores.value.runnerScore)
  {
    var levels := ComputedLevels(scores);
    (levels.0, if scores.Some? && scores.value.errandsCompleted > 0 then Some(levels.1) else None)
  }

  /** The defaults are the levels of a zero score, the lowest rungs; without
      a scores row only the cribn badge, Newbie, is drawn. */
  lemma NoScoresShowsLowestLevels(id: string, userId: string, errands: int)
    ensures ComputedLevels(None) == ComputedLevels(Some(UserScores(id, userId, 0, 0, errands)))
    ensures ComputedLevels(None) == (Level(CribnNames[0], RungColors[0]), Level(RunnerNames[0], RungColors[0]))
    ensures ShownLevels(None) == (Level(CribnNames[0], RungColors[0]), None)
  {
  }

  /** The page's own state: the selected history tab, over the wallet hook. */
  class WalletScreen {
    var transactionFilter: TransactionFilter
    const hook: WalletHook

    constructor (hook: WalletHook)
      ensures this.hook == hook && transactionFilter == AllTypes
    {
      this.hook := hook;
      transactionFilter := AllTypes;
    }

    /** `handleFilterChange`: stores the tab and refetches with that same
        filter, so after a successful fetch every listed row is of a type
        the selected tab admits. */
    method HandleFilterChange(filter: TransactionFilter, table: seq<WalletTransaction>, querySucceeds: bool)
      modifies this`transactionFilter, hook`transactions, hook`loading
      ensures transactionFilter == filter
      ensures hook.user.None? ==> hook.transactions == old(hook.transactions) && hook.loading == old(hook.loading)
      ensures hook.user.Some? ==> !hook.loading
      ensures hook.user.Some? ==>
        hook.transactions == if querySucceeds then TransactionsQuery(table, hook.user.value.id, Some(filter)) else old(hook.transactions)
      ensures hook.user.Some? && querySucceeds ==>
        forall row :: row in hook.transactions ==> row in table && Selects(Some(transactionFilter), row.txType)
    {
      transactionFilter := filter;
      hook.FetchTransactions(Some(filter), table, querySucceeds);
      if hook.user.Some? && querySucceeds {
        forall row | row in hook.transactions
          ensures row in table && Selects(Some(transactionFilter), row.txType)
        {
          QueryMembership(table, hook.user.value.id, Some(filter), row);
        }
      }
    }
  }
}
