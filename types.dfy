/** The transaction record as the external platform supplies it (`src/lib/types.ts`), reduced
    to the fields the core reads. */
module Types {

  /** `amount` is typed as a number, but the plan-savings code checks `typeof amount === 'number'`
      at run time, so a record may carry something else there. */
  datatype Amount = Number(value: real) | NotANumber

  datatype Transaction = Transaction(
    transactionId: string,
    amount: Amount,
    locationName: string,
    accountName: string)
}
