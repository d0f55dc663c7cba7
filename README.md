# Loan default risk: feature extraction and risk segmentation

This project is a Dafny model of the two pieces of domain logic in a
consumer-loan default-risk service. The rest of the service is plumbing.

- **The recommendation engine** (`backend/app/recommendations.py`) maps a
  default probability to one of three risk segments. The thresholds are
  half-open: below 0.2 is "Low Risk", from 0.2 up to (not including) 0.6 is
  "Medium Risk", and 0.6 or more is "High Risk". The engine returns that
  segment, the segment's fixed list of three collection actions, and the
  probability rounded to 4 places.
- **The feature extractor** (`backend/app/features.py`) joins loans with
  their borrowers. For each joined loan it computes:
  - repayment velocity;
  - a delinquency estimate;
  - payment consistency;
  - a 0/1 training label.

  It then deletes every stored `LoanFeatures` row and bulk-inserts the new
  rows.

Files:

- `rounding.dfy` (module `Rounding`): Python's `round(x, ndigits)` on exact
  reals. It gives the nearest multiple of 10^-ndigits, and a tie goes to the
  even multiple. The module proves the error bound, idempotence,
  monotonicity and non-negativity.
- `recommendations.dfy` (module `Recommendations`): the action catalog is a
  constant. `segment_borrower` and `get_recommendation` are functions.
- `features.dfy` (module `Features`): the records of `backend/app/models.py`
  as datatypes, the per-loan feature arithmetic, the label, the inner join
  and the rows built from it.
- `feature_table.dfy` (module `FeatureTable`): the `LoanFeatures` table is
  the field of a class. The rebuild is a method that loops over the joined
  loans and then clears and refills the field.

Modelling choices:

- Money and probabilities are `real`, so every threshold comparison is
  exact.
- Dates are integer day numbers, and the current day `now` is a parameter.
- Python's `int(days / 30)` truncates toward zero. The model writes that out
  (`WholeMonths`) instead of using Dafny's Euclidean `/`.
- The random credit-utilisation value is a parameter `draw`: row k takes
  `draw(k)`.
- pandas' standard deviation is a parameter `std`. It returns a number or
  NaN (`Float`).

The model follows what the code does, which in places differs from what the
service is described as doing:

- Probabilities are described as lying in [0, 1], but out-of-range values
  are neither rejected nor clamped: a negative value gives "Low Risk" and a
  value above 1 gives "High Risk" (`SegmentOutOfRange`).
- Defaults are described as charged-off or late loans, but the label is 1
  only for the exact status strings "Charged Off" and "Late (31-120 days)".
  The bare word "Late" gives 0 (`OtherStatusesAreNotDefaults`).
- Every loan is described as getting a feature row, but only loans with a
  matching borrower get one (inner join).
- The rebuild is described as replacing the table, but it commits the delete
  and the insert separately, not as one all-or-nothing transaction.
- Credit utilisation is described as a placeholder value; the code draws it
  at random.
- Months are described as floored; the code truncates toward zero. After the
  `max(0, ...)` the two always agree (`DelinquencyIgnoresTruncationMode`).

## Model

| member | source | states |
|---|---|---|
| `Rounding.Round` | backend/app/recommendations.py:36 | `round(x, n)`: the nearest-even count of 10^-n units, divided by 10^n. It has no contract of its own; its meaning is fixed by `NearestEven`'s contract and by the `Round*` lemmas below |
| `Rounding.NearestEven` | backend/app/recommendations.py:36 | the chosen integer is within 1/2 of its argument, and on an exact tie it is even |
| `Rounding.NearestEvenIsNearest` | backend/app/recommendations.py:36 | no integer is nearer to the argument than the rounded one |
| `Rounding.NearestEvenOfInteger` | backend/app/recommendations.py:36 | an integer rounds to itself |
| `Rounding.NearestEvenMonotone` | backend/app/recommendations.py:36 | rounding to an integer never reverses an order |
| `Rounding.RoundError` | backend/app/recommendations.py:36 | `round(x, n)` differs from x by at most half a unit in the n-th decimal place |
| `Rounding.RoundIdempotent` | backend/app/recommendations.py:36 | rounding a rounded value again changes nothing |
| `Rounding.RoundMonotone` | backend/app/features.py:71 | rounding never reverses an order |
| `Rounding.RoundZero` | backend/app/features.py:71 | 0 rounds to 0, so a zero velocity is stored as 0 |
| `Rounding.RoundNonNegative` | backend/app/features.py:75 | a non-negative value rounds to a non-negative value |
| `Recommendations.SegmentBorrower` | backend/app/recommendations.py:22-28 | every real gets a segment, and that segment is always a key of the catalog with a rank from 0 to 2 |
| `Recommendations.SegmentIntervals` | backend/app/recommendations.py:22-28 | Low Risk exactly when p < 0.2, Medium Risk exactly when 0.2 <= p < 0.6, High Risk exactly when p >= 0.6 (each in both directions) |
| `Recommendations.SegmentBoundaries` | backend/app/recommendations.py:22-28 | 0.1999 is Low, 0.2 is Medium, 0.5999 is Medium, 0.6 and 0.7 are High |
| `Recommendations.SegmentOutOfRange` | backend/app/recommendations.py:22-28 | negative probabilities give Low Risk and probabilities above 1 give High Risk; nothing is rejected |
| `Recommendations.SegmentMonotone` | backend/app/recommendations.py:22-28 | p <= q implies rank(segment(p)) <= rank(segment(q)) with Low < Medium < High |
| `Recommendations.RiskRankDistinguishes` | backend/app/recommendations.py:22-28 | the rank tells the three segments apart |
| `Recommendations.ActionsFor` | backend/app/recommendations.py:32 | `self.actions.get(segment, [])`: a catalog key gives exactly its list of 3 actions from the `Actions` constant (the catalog of lines 4-20); any other string gives the empty list |
| `Recommendations.ActionsIdentifySegment` | backend/app/recommendations.py:4-20 | two probabilities get the same recommended actions exactly when they fall in the same segment, because the three catalog lists are pairwise different |
| `Recommendations.GetRecommendation` | backend/app/recommendations.py:30-37 | the segment is `segment_borrower(p)`; the actions are exactly that segment's catalog list of 3 entries, so the `[]` fallback is never used; the reported probability is `round(p, 4)` (half to even on a tie), so it is within 0.00005 of p and is already rounded to 4 places |
| `Recommendations.SegmentStableUnderRounding` | backend/app/recommendations.py:31-36 | when p is more than 0.00005 away from both thresholds, the reported (rounded) probability falls in the reported segment |
| `Recommendations.ReportedProbabilityCanCrossThreshold` | backend/app/recommendations.py:31-36 | near a threshold the two can disagree: p = 0.19999 is reported as Low Risk with probability 0.2 |
| `Features.GetTarget` | backend/app/features.py:33-36 | the label is 0 or 1, and it is 1 exactly when the status is "Charged Off" or "Late (31-120 days)" |
| `Features.OtherStatusesAreNotDefaults` | backend/app/features.py:33-36 | "Current", "Fully Paid", "Default" and the bare "Late" are all labelled 0 |
| `Features.RepaymentsOf` | backend/app/features.py:41 | the selected repayments are exactly those of the table whose `loan_id` is the loan's id |
| `Features.RepaymentsOfAppend` | backend/app/features.py:41 | selecting a loan's repayments distributes over concatenation of repayment tables |
| `Features.RepaymentsOfOthers` | backend/app/features.py:41 | repayments of other loans select to nothing |
| `Features.TotalPaid` | backend/app/features.py:45 | `payment_amount.sum()`: 0 for no repayments, the one amount for a single repayment, and never negative when no amount is negative; `TotalPaidAppend` fixes the rest |
| `Features.TotalPaidAppend` | backend/app/features.py:45 | the total paid is additive over concatenation |
| `Features.RepaymentVelocity` | backend/app/features.py:45-46 | when amount > 0, velocity times amount is the total paid; otherwise velocity is 0 whatever was paid; with no repayments it is 0 |
| `Features.VelocityNonNegative` | backend/app/features.py:45-46 | with non-negative payments the stored (rounded) velocity is non-negative |
| `Features.WholeMonths` | backend/app/features.py:53-54 | the whole months in a day count, truncated toward zero: the remainder has the sign of the day count and is smaller than 30 |
| `Features.DelinquencyFreq` | backend/app/features.py:53-54 | never negative, at least months-since-issue minus repayment count, and equal to that difference or to 0 |
| `Features.DelinquencyIgnoresTruncationMode` | backend/app/features.py:53-54 | truncating or flooring the months gives the same estimate |
| `Features.DelinquencyMonotoneInTime` | backend/app/features.py:53-54 | a later `now` never lowers the estimate |
| `Features.DelinquencyAntitoneInRepayments` | backend/app/features.py:53-54 | more repayments never raise the estimate |
| `Features.DelinquencyOfNewLoan` | backend/app/features.py:53-54 | a loan issued less than 30 days before `now`, or after it, has estimate 0 |
| `Features.PaymentConsistency` | backend/app/features.py:57-58 | 0 for 0 or 1 repayments; otherwise the standard deviation of the amounts; a NaN becomes 0; non-negative whenever the standard deviation is |
| `Features.LoanFeatureRow` | backend/app/features.py:39-80 | the row carries the loan's id, label 0/1 as `default_probability`, "Unknown", "None", debt-to-income 0.0, the given utilisation draw; with the loan's own repayments, the delinquency estimate, the velocity rounded to 4 places and the consistency rounded to 2 places; so a non-negative delinquency, velocity 0 when amount <= 0 or no repayments, consistency 0 for at most one repayment and non-negative otherwise |
| `Features.OtherLoansRepaymentsIrrelevant` | backend/app/features.py:41 | inserting repayments of other loans anywhere in the repayment table leaves a loan's row unchanged |
| `Features.BorrowerMatches` | backend/app/features.py:24 | the number of matching borrowers is positive exactly when some borrower carries the loan's `borrower_id` |
| `Features.MergeBorrowers` | backend/app/features.py:24 | every joined loan comes from the loan table and has a matching borrower |
| `Features.AtMostOneMatch` | backend/app/features.py:24 | with unique borrower ids a loan matches at most one borrower |
| `Features.MergeIsFilter` | backend/app/features.py:24 | with unique borrower ids the inner join keeps exactly the loans that have a borrower, once each, in loan order |
| `Features.LoanWithoutBorrowerHasNoRow` | backend/app/features.py:24 | a loan whose borrower is missing is dropped by the join |
| `Features.FeatureRows` | backend/app/features.py:39-80 | one row per joined loan, in join order, the k-th built from the k-th loan and the k-th draw |
| `Features.RowsFollowLoansWithBorrower` | backend/app/features.py:24-80 | with unique borrower ids there are exactly as many rows as loans with a borrower, and row k carries the id of the k-th such loan |
| `FeatureTable.FeatureStore.DeleteAll` | backend/app/features.py:85-86 | the table is empty afterwards |
| `FeatureTable.FeatureStore.BulkInsert` | backend/app/features.py:88-92 | the new rows are appended after the existing ones |
| `FeatureTable.FeatureStore.CalculateFeatures` | backend/app/features.py:9-92 | after a successful run the table holds exactly the rows built from the joined loans, and none of the previous rows |

## Left out

- HTTP routes, CORS, static files, the redirect and model loading
  (`backend/app/main.py`) are framework glue. `/predict` only passes the
  output of an external classifier to `get_recommendation`.
- Training (`backend/app/train.py`), CSV ingestion (`backend/app/ingest.py`),
  session plumbing (`backend/app/database.py`) and synthetic data
  (`data/generate_data.py`) are external library calls or have no logic.
- The CSV export of the training set (backend/app/features.py:95-97) is file
  I/O.
- The rebuild's failure path is not modelled. The code commits the delete
  before it runs the insert, so a failed insert would leave an empty table.
  The model covers the successful run and the two steps on their own.
- The generated primary key `id` of `LoanFeatures` rows is not modelled.
- Credit utilisation is `np.random.uniform(0.1, 0.9)` in the code. Here it is
  the parameter `draw`, and no range is assumed for it.
- The standard deviation is the parameter `std`.
  `Features.PaymentConsistency` promises a non-negative score only when
  `std` returns non-negative numbers.
- IEEE doubles are modelled as exact reals. `round` is modelled on the exact
  value.
- `Features.WholeMonths`: `days / 30` is float division in the code. For any
  realistic day count it is exact enough that `int()` gives the truncated
  quotient, and the model computes that quotient exactly.
- Datetime parsing and `pd.Timestamp.now()` are left out. The caller passes
  day numbers, with pandas' `.days` already applied.
- `Rounding.RoundError`: stated only for 2 and 4 decimal places, the two
  precisions the source uses.
- `Rounding.RoundIdempotent`: stated only for 2 and 4 decimal places.
- `Rounding.RoundMonotone`: stated only for 2 and 4 decimal places.
- `Rounding.RoundNonNegative`: stated only for 2 and 4 decimal places.
- pandas merge details beyond key equality are left out. Null keys and
  column suffixes are not modelled. The model keeps loan order, as pandas
  documents for an inner merge. Older pandas versions may group equal keys
  together instead, so the row order, and with it which random draw goes with
  which loan, can depend on the pandas version. Apart from the utilisation
  values, the rows built are the same either way.
