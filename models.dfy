/** The ledger record of the newer ingestion path. */
module Models {
  import opened Values

  /** A `Transaction` (app/core/models.py). The dataclass does not check the
      types of its fields, so the fields filled from a CSV column keep the cell
      they were given (`Null` for None); dates are day numbers, `None` for NaT. */
  datatype Transaction = Transaction(
    hash: string,
    accountType: string,
    montant: real,
    dateOp: Option<int>,
    libelleOp: Cell,
    dateCompte: Option<int>,
    libelleSimple: Cell,
    reference: Cell,
    infoComplementaires: Cell,
    typeOp: Cell,
    categorie: Cell,
    sousCategorie: Cell,
    debit: Cell,
    credit: Cell,
    dateValeur: Option<int>,
    pointageOp: Cell,
    typeBudget: string)
}
