/** Card products and a merchant's fee plan. */
module FeePlans {
  import opened Results

  datatype Product = Debit | Credit

  datatype FeePlan = FeePlan(debit: int, creditOneShot: int, creditInstallments: map<int, int>, anticipationRateMonth: int)
  {
    // What the factory of a plan lets through.
    ghost predicate Valid() {
      && 0 <= debit <= 10000 && 0 <= creditOneShot <= 10000 && 0 <= anticipationRateMonth
      && forall n :: n in creditInstallments ==> 2 <= n <= 12 && 0 <= creditInstallments[n] <= 10000
    }

    // The merchant discount rate of a sale, in basis points.
    function MDR(product: Product, installments: int): (r: Result<int>)
      ensures r.Err? <==> installments < 1 || (installments > 1 && (product.Debit? || installments !in creditInstallments))
      ensures r.Err? ==> r.error == InstallmentsNotAllowed
      ensures installments == 1 ==> r == Ok(if product.Debit? then debit else creditOneShot)
      ensures installments > 1 && r.Ok? ==> r.value == creditInstallments[installments]
      ensures r.Ok? && Valid() ==> installments <= 12 && 0 <= r.value <= 10000
    {
      if product.Debit? && installments == 1 then Ok(debit)
      else if product.Credit? && installments == 1 then Ok(creditOneShot)
      else if product.Credit? && installments > 1 then
        if installments in creditInstallments then Ok(creditInstallments[installments]) else Err(InstallmentsNotAllowed)
      else Err(InstallmentsNotAllowed)
    }
  }
}
