/** `TransactionType`: every transaction and category is income or expense. */
module TransactionType {

  datatype TxType = Income | Expense
}
