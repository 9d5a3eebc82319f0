/** The Option, Result and Outcome wrappers shared by the retorno and remessa models. */
module Wrappers {

  datatype Option<+T> = None | Some(value: T)

  /** A value, or the message of the exception the source throws instead. */
  datatype Result<+R, +E> = Success(value: R) | Failure(error: E)

  /** The outcome of an operation that returns nothing but may throw. */
  datatype Outcome<+E> = Pass | Fail(error: E)
}

/**
 * The FEBRABAN compensation codes of the banks whose variants the decoder
 * and the builder distinguish, and the shape of a bank registry entry. The registry
 * itself (src/Cnab/Banco.php) is not part of this model: its lookup is
 * passed in as a value.
 */
module Banco {

  const BANCO_DO_BRASIL: int := 1
  const SANTANDER: int := 33
  const CEF: int := 104
  const BRADESCO: int := 237
  const SICOOB: int := 756

  /** What the bank registry returns for one bank code. */
  datatype BancoInfo<V> = BancoInfo(codigoDoBanco: V, nomeDoBanco: V)
}

/** Calendar values as the source's DateTime objects carry them. */
module Calendar {

  datatype DateTime = DateTime(year: int, month: int, day: int, hour: int, minute: int, second: int)
}
