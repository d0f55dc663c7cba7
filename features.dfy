/**
 * The per-loan feature arithmetic of backend/app/features.py: the records it
 * reads (backend/app/models.py), the training label, repayment velocity,
 * the delinquency estimate, payment consistency, the inner join of loans
 * with borrowers, and the feature row built for each joined loan.
 *
 * Money and probabilities are exact reals, dates are day numbers, and the
 * current day, the random credit-utilisation draws and pandas' standard
 * deviation are parameters.
 */
module Features {
  import opened Rounding

  datatype Borrower = Borrower(
    id: int,
    fullName: string,
    creditScore: int,
    annualIncome: real,
    employmentYears: int,
    homeOwnership: string)

  datatype Loan = Loan(
    id: int,
    borrowerId: int,
    amount: real,
    termMonths: int,
    interestRate: real,
    installment: real,
    grade: string,
    issueDay: int,
    loanStatus: string)

  datatype Repayment = Repayment(
    id: int,
    loanId: int,
    paymentDay: int,
    paymentAmount: real)

  /** One record of the LoanFeatures table, without its generated key. */
  datatype FeatureRow = FeatureRow(
    loanId: int,
    repaymentVelocity: real,
    creditUtilizationRatio: real,
    delinquencyFreq: int,
    debtToIncomeRatio: real,
    paymentConsistencyScore: real,
    defaultProbability: real,
    riskSegment: string,
    recommendedAction: string)

  /** A floating-point result that may be NaN, as pandas' `std` returns. */
  datatype Float = Num(value: real) | NaN

  /** A standard deviation is never negative when it is a number. */
  ghost predicate NonNegativeStd(std: seq<real> -> Float) {
    forall xs :: std(xs).Num? ==> std(xs).value >= 0.0
  }

  const ChargedOff: string := "Charged Off"
  const Late31To120: string := "Late (31-120 days)"

  function Max(a: int, b: int): int {
    if a < b then b else a
  }

  // ---------------------------------------------------------------------
  // Training label

  /** `get_target`: 1 for the two default statuses, 0 for every other. */
  function GetTarget(status: string): (target: int)
    ensures target == 0 || target == 1
    ensures target == 1 <==> status == ChargedOff || status == Late31To120
  {
    if status in [ChargedOff, Late31To120] then 1 else 0
  }

  /**
   * Only the exact literals count: the bare word "Late", and the other
   * statuses the data uses, are labelled 0.
   */
  lemma OtherStatusesAreNotDefaults()
    ensures GetTarget("Current") == 0
    ensures GetTarget("Fully Paid") == 0
    ensures GetTarget("Late") == 0
    ensures GetTarget("Default") == 0
  {
  }

  // ---------------------------------------------------------------------
  // A loan's repayments

  /** The repayments whose `loan_id` is loanId, in their original order. */
  function RepaymentsOf(loanId: int, repayments: seq<Repayment>): (mine: seq<Repayment>)
    ensures |mine| <= |repayments|
    ensures forall r :: r in mine <==> r in repayments && r.loanId == loanId
  {
    if repayments == [] then []
    else if repayments[0].loanId == loanId then [repayments[0]] + RepaymentsOf(loanId, repayments[1..])
    else RepaymentsOf(loanId, repayments[1..])
  }

  /** Selecting a loan's repayments distributes over concatenation. */
  lemma {:induction false} RepaymentsOfAppend(loanId: int, a: seq<Repayment>, b: seq<Repayment>)
    ensures RepaymentsOf(loanId, a + b) == RepaymentsOf(loanId, a) + RepaymentsOf(loanId, b)
  {
    if a == [] {
      assert a + b == b;
    } else {
      assert (a + b)[1..] == a[1..] + b;
      RepaymentsOfAppend(loanId, a[1..], b);
    }
  }

  /** Repayments of other loans contribute nothing. */
  lemma {:induction false} RepaymentsOfOthers(loanId: int, others: seq<Repayment>)
    requires forall r :: r in others ==> r.loanId != loanId
    ensures RepaymentsOf(loanId, others) == []
  {
    if others != [] {
      assert others[0] in others;
      RepaymentsOfOthers(loanId, others[1..]);
    }
  }

  /**
   * The sum of the payment amounts: 0 for no repayments, the one amount for
   * a single repayment, and never negative when no amount is.
   */
  function TotalPaid(repayments: seq<Repayment>): (total: real)
    ensures repayments == [] ==> total == 0.0
    ensures |repayments| == 1 ==> total == repayments[0].paymentAmount
    ensures (forall r :: r in repayments ==> r.paymentAmount >= 0.0) ==> total >= 0.0
  {
    if repayments == [] then 0.0
    else repayments[0].paymentAmount + TotalPaid(repayments[1..])
  }

  lemma {:induction false} TotalPaidAppend(a: seq<Repayment>, b: seq<Repayment>)
    ensures TotalPaid(a + b) == TotalPaid(a) + TotalPaid(b)
  {
    if a == [] {
      assert a + b == b;
    } else {
      assert (a + b)[1..] == a[1..] + b;
      TotalPaidAppend(a[1..], b);
    }
  }

  // ---------------------------------------------------------------------
  // Per-loan features

  /**
   * Repayment velocity: total paid over the loan amount when the amount is
   * positive, otherwise 0 whatever was paid. There is no upper clamp.
   */
  function RepaymentVelocity(loan: Loan, loanRepayments: seq<Repayment>): (v: real)
    ensures loan.amount > 0.0 ==> v * loan.amount == TotalPaid(loanRepayments)
    ensures loan.amount <= 0.0 ==> v == 0.0
    ensures loanRepayments == [] ==> v == 0.0
  {
    var totalPaid := if loanRepayments != [] then TotalPaid(loanRepayments) else 0.0;
    if loan.amount > 0.0 then totalPaid / loan.amount else 0.0
  }

  /**
   * `int(days / 30)`: whole months elapsed, truncated toward zero, so a
   * negative day count (an issue date after `now`) also truncates toward 0.
   */
  function WholeMonths(days: int): (months: int)
    ensures days >= 0 ==> 0 <= days - 30 * months < 30
    ensures days < 0 ==> -30 < days - 30 * months <= 0
  {
    if days >= 0 then days / 30 else -((-days) / 30)
  }

  /**
   * The delinquency estimate: whole months since issue less the number of
   * repayments, never below 0.
   */
  function DelinquencyFreq(loan: Loan, loanRepayments: seq<Repayment>, now: int): (missed: int)
    ensures missed >= 0
    ensures missed >= WholeMonths(now - loan.issueDay) - |loanRepayments|
    ensures missed == 0 || missed == WholeMonths(now - loan.issueDay) - |loanRepayments|
  {
    Max(0, WholeMonths(now - loan.issueDay) - |loanRepayments|)
  }

  /**
   * Truncating toward zero and flooring differ only on negative day counts,
   * and there the estimate is 0 either way.
   */
  lemma DelinquencyIgnoresTruncationMode(loan: Loan, loanRepayments: seq<Repayment>, now: int)
    ensures DelinquencyFreq(loan, loanRepayments, now)
         == Max(0, (now - loan.issueDay) / 30 - |loanRepayments|)
  {
  }

  /** A later `now` never lowers the estimate. */
  lemma DelinquencyMonotoneInTime(loan: Loan, loanRepayments: seq<Repayment>, now1: int, now2: int)
    requires now1 <= now2
    ensures DelinquencyFreq(loan, loanRepayments, now1) <= DelinquencyFreq(loan, loanRepayments, now2)
  {
  }

  /** Another repayment never raises the estimate. */
  lemma DelinquencyAntitoneInRepayments(loan: Loan, fewer: seq<Repayment>, more: seq<Repayment>, now: int)
    requires |fewer| <= |more|
    ensures DelinquencyFreq(loan, more, now) <= DelinquencyFreq(loan, fewer, now)
  {
  }

  /** A loan less than 30 days old, or issued after `now`, has no missed payments. */
  lemma DelinquencyOfNewLoan(loan: Loan, loanRepayments: seq<Repayment>, now: int)
    requires now - loan.issueDay < 30
    ensures DelinquencyFreq(loan, loanRepayments, now) == 0
  {
  }

  function PaymentAmounts(repayments: seq<Repayment>): (amounts: seq<real>)
    ensures |amounts| == |repayments|
    ensures forall k :: 0 <= k < |repayments| ==> amounts[k] == repayments[k].paymentAmount
  {
    seq(|repayments|, k requires 0 <= k < |repayments| => repayments[k].paymentAmount)
  }

  /**
   * Payment consistency: the standard deviation of the payment amounts when
   * there is more than one repayment, otherwise 0; a NaN becomes 0.
   */
  function PaymentConsistency(loanRepayments: seq<Repayment>, std: seq<real> -> Float): (c: real)
    ensures |loanRepayments| <= 1 ==> c == 0.0
    ensures NonNegativeStd(std) ==> c >= 0.0
    ensures |loanRepayments| > 1 && std(PaymentAmounts(loanRepayments)).Num? ==>
              c == std(PaymentAmounts(loanRepayments)).value
    ensures std(PaymentAmounts(loanRepayments)).NaN? ==> c == 0.0
  {
    var consistency := if |loanRepayments| > 1 then std(PaymentAmounts(loanRepayments)) else Num(0.0);
    if consistency.NaN? then 0.0 else consistency.value
  }

  /**
   * The feature row of one joined loan, given all repayments, the current
   * day, this row's credit-utilisation draw and the standard deviation.
   */
  function LoanFeatureRow(loan: Loan, repayments: seq<Repayment>, now: int, utilization: real,
                          std: seq<real> -> Float): (row: FeatureRow)
    ensures row.loanId == loan.id
    ensures row.defaultProbability == 1.0 <==> loan.loanStatus == ChargedOff || loan.loanStatus == Late31To120
    ensures row.defaultProbability == 0.0 || row.defaultProbability == 1.0
    ensures row.riskSegment == "Unknown" && row.recommendedAction == "None"
    ensures row.debtToIncomeRatio == 0.0
    ensures row.creditUtilizationRatio == utilization
    ensures var mine := RepaymentsOf(loan.id, repayments);
            && row.delinquencyFreq == DelinquencyFreq(loan, mine, now)
            && row.repaymentVelocity == Round(RepaymentVelocity(loan, mine), 4)
            && row.paymentConsistencyScore == Round(PaymentConsistency(mine, std), 2)
    ensures row.delinquencyFreq >= 0
    ensures loan.amount <= 0.0 ==> row.repaymentVelocity == 0.0
    ensures RepaymentsOf(loan.id, repayments) == [] ==> row.repaymentVelocity == 0.0
    ensures |RepaymentsOf(loan.id, repayments)| <= 1 ==> row.paymentConsistencyScore == 0.0
    ensures NonNegativeStd(std) ==> row.paymentConsistencyScore >= 0.0
  {
    var loanRepayments := RepaymentsOf(loan.id, repayments);
    var velocity := RepaymentVelocity(loan, loanRepayments);
    var consistency := PaymentConsistency(loanRepayments, std);
    RoundZero(4);
    RoundZero(2);
    RoundNonNegative(consistency, 2);
    FeatureRow(
      loan.id,
      Round(velocity, 4),
      utilization,
      DelinquencyFreq(loan, loanRepayments, now),
      0.0,
      Round(consistency, 2),
      GetTarget(loan.loanStatus) as real,
      "Unknown",
      "None")
  }

  /** With non-negative payments, the stored velocity is non-negative too. */
  lemma VelocityNonNegative(loan: Loan, repayments: seq<Repayment>, now: int, utilization: real,
                            std: seq<real> -> Float)
    requires forall r :: r in repayments ==> r.paymentAmount >= 0.0
    ensures LoanFeatureRow(loan, repayments, now, utilization, std).repaymentVelocity >= 0.0
  {
    var mine := RepaymentsOf(loan.id, repayments);
    var v := RepaymentVelocity(loan, mine);
    if loan.amount > 0.0 {
      assert v * loan.amount >= 0.0;
      assert v >= 0.0;
    }
    RoundNonNegative(v, 4);
  }

  /**
   * A loan's row depends only on its own repayments: inserting repayments of
   * other loans anywhere in the repayment table leaves it unchanged.
   */
  lemma OtherLoansRepaymentsIrrelevant(loan: Loan, before: seq<Repayment>, others: seq<Repayment>,
                                       after: seq<Repayment>, now: int, utilization: real,
                                       std: seq<real> -> Float)
    requires forall r :: r in others ==> r.loanId != loan.id
    ensures LoanFeatureRow(loan, before + others + after, now, utilization, std)
         == LoanFeatureRow(loan, before + after, now, utilization, std)
  {
    RepaymentsOfAppend(loan.id, before + others, after);
    RepaymentsOfAppend(loan.id, before, others);
    RepaymentsOfOthers(loan.id, others);
    RepaymentsOfAppend(loan.id, before, after);
    assert RepaymentsOf(loan.id, before + others + after) == RepaymentsOf(loan.id, before + after);
  }

  // ---------------------------------------------------------------------
  // Joining loans with borrowers

  /** How many borrowers carry the loan's `borrower_id`. */
  function BorrowerMatches(loan: Loan, borrowers: seq<Borrower>): (n: nat)
    ensures n <= |borrowers|
    ensures n > 0 <==> exists b :: b in borrowers && b.id == loan.borrowerId
  {
    if borrowers == [] then 0
    else (if borrowers[0].id == loan.borrowerId then 1 else 0) + BorrowerMatches(loan, borrowers[1..])
  }

  function Repeat(loan: Loan, n: nat): (copies: seq<Loan>)
    ensures |copies| == n
    ensures forall k :: 0 <= k < n ==> copies[k] == loan
  {
    if n == 0 then [] else [loan] + Repeat(loan, n - 1)
  }

  /**
   * The inner merge on `borrower_id` = borrower `id`: in loan order, each
   * loan once per matching borrower, and not at all when none matches.
   */
  function MergeBorrowers(loans: seq<Loan>, borrowers: seq<Borrower>): (joined: seq<Loan>)
    ensures forall l :: l in joined ==> l in loans && exists b :: b in borrowers && b.id == l.borrowerId
  {
    if loans == [] then []
    else Repeat(loans[0], BorrowerMatches(loans[0], borrowers)) + MergeBorrowers(loans[1..], borrowers)
  }

  ghost predicate UniqueBorrowerIds(borrowers: seq<Borrower>) {
    forall i, j :: 0 <= i < j < |borrowers| ==> borrowers[i].id != borrowers[j].id
  }

  predicate HasBorrower(loan: Loan, borrowers: seq<Borrower>) {
    exists b :: b in borrowers && b.id == loan.borrowerId
  }

  /** The loans that have a borrower, in their original order. */
  function LoansWithBorrower(loans: seq<Loan>, borrowers: seq<Borrower>): seq<Loan> {
    if loans == [] then []
    else if HasBorrower(loans[0], borrowers) then [loans[0]] + LoansWithBorrower(loans[1..], borrowers)
    else LoansWithBorrower(loans[1..], borrowers)
  }

  /** Borrower ids are a primary key, so a loan matches at most one borrower. */
  lemma {:induction false} AtMostOneMatch(loan: Loan, borrowers: seq<Borrower>)
    requires UniqueBorrowerIds(borrowers)
    ensures BorrowerMatches(loan, borrowers) <= 1
  {
    if borrowers != [] {
      var rest := borrowers[1..];
      assert UniqueBorrowerIds(rest) by {
        forall i, j | 0 <= i < j < |rest| ensures rest[i].id != rest[j].id {
          assert rest[i] == borrowers[i + 1] && rest[j] == borrowers[j + 1];
        }
      }
      AtMostOneMatch(loan, rest);
    }
  }

  /**
   * With unique borrower ids the merge is a filter: exactly one row per loan
   * whose borrower exists, in loan order.
   */
  lemma {:induction false} MergeIsFilter(loans: seq<Loan>, borrowers: seq<Borrower>)
    requires UniqueBorrowerIds(borrowers)
    ensures MergeBorrowers(loans, borrowers) == LoansWithBorrower(loans, borrowers)
  {
    if loans != [] {
      AtMostOneMatch(loans[0], borrowers);
      MergeIsFilter(loans[1..], borrowers);
      var n := BorrowerMatches(loans[0], borrowers);
      if n == 0 {
        assert Repeat(loans[0], n) == [];
      } else {
        assert Repeat(loans[0], n) == [loans[0]];
      }
    }
  }

  // ---------------------------------------------------------------------
  // The rebuilt table

  /**
   * The rows `calculate_features` builds: one per joined loan, in join
   * order, the k-th taking the k-th random draw.
   */
  function FeatureRows(joined: seq<Loan>, repayments: seq<Repayment>, now: int, draw: nat -> real,
                       std: seq<real> -> Float): (rows: seq<FeatureRow>)
    ensures |rows| == |joined|
    ensures forall k :: 0 <= k < |joined| ==> rows[k] == LoanFeatureRow(joined[k], repayments, now, draw(k), std)
  {
    seq(|joined|, k requires 0 <= k < |joined| => LoanFeatureRow(joined[k], repayments, now, draw(k), std))
  }

  /**
   * With unique borrower ids, the table holds one row per loan that has a
   * borrower, in loan order, keyed by that loan's id; loans without a
   * borrower get no row.
   */
  lemma RowsFollowLoansWithBorrower(loans: seq<Loan>, borrowers: seq<Borrower>, repayments: seq<Repayment>,
                                    now: int, draw: nat -> real, std: seq<real> -> Float)
    requires UniqueBorrowerIds(borrowers)
    ensures var rows := FeatureRows(MergeBorrowers(loans, borrowers), repayments, now, draw, std);
            var kept := LoansWithBorrower(loans, borrowers);
            |rows| == |kept| && forall k :: 0 <= k < |kept| ==> rows[k].loanId == kept[k].id
  {
    MergeIsFilter(loans, borrowers);
  }

  /** A loan without a borrower contributes no row at all. */
  lemma LoanWithoutBorrowerHasNoRow(loans: seq<Loan>, borrowers: seq<Borrower>, loan: Loan)
    requires loan in loans && !HasBorrower(loan, borrowers)
    ensures loan !in MergeBorrowers(loans, borrowers)
  {
  }
}
