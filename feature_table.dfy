/**
 * The LoanFeatures table and the batch rebuild `calculate_features` of
 * backend/app/features.py: a loop appends one feature row per joined loan,
 * then every stored row is deleted and the new rows are bulk-inserted.
 */
module FeatureTable {
  import opened Features

  /** Building the rows of one more loan appends that loan's row. */
  lemma FeatureRowsSnoc(joined: seq<Loan>, i: nat, repayments: seq<Repayment>, now: int,
                        draw: nat -> real, std: seq<real> -> Float)
    requires i < |joined|
    ensures FeatureRows(joined[..i + 1], repayments, now, draw, std)
         == FeatureRows(joined[..i], repayments, now, draw, std)
            + [LoanFeatureRow(joined[i], repayments, now, draw(i), std)]
  {
  }

  /** The LoanFeatures table as the database holds it. */
  class FeatureStore {
    var table: seq<FeatureRow>

    constructor (rows: seq<FeatureRow>)
      ensures table == rows
    {
      table := rows;
    }

    /** `db.query(LoanFeatures).delete()` followed by its commit. */
    method DeleteAll()
      modifies this
      ensures table == []
    {
      table := [];
    }

    /** `db.bulk_insert_mappings(LoanFeatures, ...)` followed by its commit. */
    method BulkInsert(rows: seq<FeatureRow>)
      modifies this
      ensures table == old(table) + rows
    {
      table := table + rows;
    }

    /**
     * `calculate_features`: joins loans with borrowers, builds one feature
     * row per joined loan (the k-th taking the k-th random draw), clears the
     * table and inserts the new rows. Afterwards the table holds exactly the
     * new rows and none of the old ones.
     */
    method CalculateFeatures(loans: seq<Loan>, repayments: seq<Repayment>, borrowers: seq<Borrower>,
                             now: int, draw: nat -> real, std: seq<real> -> Float)
      modifies this
      ensures table == FeatureRows(MergeBorrowers(loans, borrowers), repayments, now, draw, std)
    {
      var joined := MergeBorrowers(loans, borrowers);
      var featureRows: seq<FeatureRow> := [];
      var i := 0;
      while i < |joined|
        invariant 0 <= i <= |joined|
        invariant featureRows == FeatureRows(joined[..i], repayments, now, draw, std)
      {
        FeatureRowsSnoc(joined, i, repayments, now, draw, std);
        var row := LoanFeatureRow(joined[i], repayments, now, draw(i), std);
        featureRows := featureRows + [row];
        i := i + 1;
      }
      assert joined[..i] == joined;
      DeleteAll();
      BulkInsert(featureRows);
    }
  }
}
