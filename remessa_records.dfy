/**
 * The records of a CNAB 240 remessa file as the builder fills them in.
 * A record (a Linha of the format layer) is a set of named fields: the
 * builder assigns some of them and the record layout supplies the rest; a
 * field the builder never assigned holds null. Encoding and validation of a
 * record belong to the format layer and enter the model as a Codec value.
 */
module RemessaRecords {
  import opened Calendar
  import opened TextNormalizer

  /** A PHP value the builder stores in a field. Amounts are integer cents. */
  datatype Value = Null | Int(i: int) | Text(s: Bytes) | Date(d: DateTime)

  /*
   * One datatype per record kind, holding the fields the builder assigns.
   * A fresh record (NOVO_*) holds null in every field: the record layout
   * supplies what the builder leaves unassigned.
   */

  datatype HeaderArquivoRec = HeaderArquivoRec(
    codigoBanco: Value, codigoInscricao: Value, numeroInscricao: Value, agencia: Value, agenciaDv: Value,
    codigoCedente: Value, codigoCedenteDv: Value, agenciaMaisCedenteDv: Value, codigoConvenio: Value,
    nomeEmpresa: Value, nomeBanco: Value, codigoRemessaRetorno: Value, dataGeracao: Value,
    horaGeracao: Value, numeroSequencialArquivo: Value)

  const NOVO_HEADER_ARQUIVO: HeaderArquivoRec :=
    HeaderArquivoRec(Null, Null, Null, Null, Null, Null, Null, Null, Null, Null, Null, Null, Null, Null, Null)

  datatype HeaderLoteRec = HeaderLoteRec(
    codigoBanco: Value, loteServico: Value, tipoOperacao: Value, tipoServico: Value,
    codigoInscricao: Value, numeroInscricao: Value, agencia: Value, agenciaDv: Value,
    codigoConvenio: Value, codigoCedente: Value, codigoCedenteDv: Value, agenciaMaisCedenteDv: Value,
    nomeEmpresa: Value, numeroSequencialArquivo: Value, dataGeracao: Value)

  const NOVO_HEADER_LOTE: HeaderLoteRec :=
    HeaderLoteRec(Null, Null, Null, Null, Null, Null, Null, Null, Null, Null, Null, Null, Null, Null, Null)

  datatype SegmentoPRec = SegmentoPRec(
    codigoBanco: Value, loteServico: Value, numeroSequencialLote: Value, codigoOcorrencia: Value,
    agencia: Value, agenciaDv: Value, codigoCedente: Value, codigoCedenteDv: Value,
    agenciaMaisCedenteDv: Value, modalidadeCarteira: Value, nossoNumero: Value, codigoCarteira: Value,
    formaCadastramento: Value, numeroDocumento: Value, vencimento: Value, valorTitulo: Value,
    especie: Value, aceite: Value, dataEmissao: Value, codigoJurosMora: Value, dataJurosMora: Value,
    valorJurosMora: Value, codigoDesconto1: Value, dataDesconto1: Value, valorDesconto1: Value,
    valorAbatimento: Value, usoEmpresa: Value, codigoProtesto: Value, prazoProtesto: Value,
    codigoBaixa: Value, prazoBaixa: Value)

  datatype SegmentoQRec = SegmentoQRec(
    codigoBanco: Value, loteServico: Value, numeroSequencialLote: Value, codigoOcorrencia: Value,
    sacadoCodigoInscricao: Value, sacadoNumeroInscricao: Value, nome: Value, logradouro: Value,
    bairro: Value, cep: Value, cidade: Value, estado: Value, sacadorCodigoInscricao: Value,
    sacadorNumeroInscricao: Value, sacadorNome: Value)

  datatype SegmentoRRec = SegmentoRRec(
    codigoBanco: Value, loteServico: Value, numeroSequencialLote: Value, codigoOcorrencia: Value,
    dataLimite: Value, codigoMulta: Value, valorMulta: Value, dataMulta: Value)

  datatype TrailerLoteRec = TrailerLoteRec(
    codigoBanco: Value, loteServico: Value, qtdeRegistroLote: Value,
    qtdeTituloCobrancaSimples: Value, valorTotalTituloSimples: Value,
    qtdeTituloCobrancaVinculada: Value, valorTotalTituloVinculada: Value,
    qtdeTituloCobrancaCaucionada: Value, valorTotalTituloCaucionada: Value,
    qtdeTituloCobrancaDescontada: Value, valorTotalTituloDescontada: Value)

  const NOVO_TRAILER_LOTE: TrailerLoteRec :=
    TrailerLoteRec(Null, Null, Null, Null, Null, Null, Null, Null, Null, Null, Null)

  datatype TrailerArquivoRec = TrailerArquivoRec(
    codigoBanco: Value, qtdeLotes: Value, qtdeRegistros: Value, qtdeContasConciliacao: Value)

  const NOVO_TRAILER_ARQUIVO: TrailerArquivoRec := TrailerArquivoRec(Null, Null, Null, Null)

  /** A record of the file, of any kind. */
  datatype Linha =
    | HeaderArquivo(ha: HeaderArquivoRec)
    | HeaderLote(hl: HeaderLoteRec)
    | SegmentoP(p: SegmentoPRec)
    | SegmentoQ(q: SegmentoQRec)
    | SegmentoR(r: SegmentoRRec)
    | TrailerLote(tl: TrailerLoteRec)
    | TrailerArquivo(ta: TrailerArquivoRec)

  /** One title: its segments P, Q and R, listed in that order. */
  datatype Detalhe = Detalhe(p: SegmentoPRec, q: SegmentoQRec, r: SegmentoRRec)

  function Segments(d: Detalhe): (s: seq<Linha>)
    ensures |s| == 3
  {
    [SegmentoP(d.p), SegmentoQ(d.q), SegmentoR(d.r)]
  }

  /**
   * The format layer: whether a record validates, the message of its last
   * failed check, and its encoded line; the same for a whole detail.
   */
  datatype Codec = Codec(
    valid: Linha -> bool,
    lastError: Linha -> string,
    encode: Linha -> Bytes,
    validDetalhe: Detalhe -> bool,
    detalheError: Detalhe -> string,
    encodeDetalhe: Detalhe -> Bytes)

  /** The record separator, "\r\n". */
  const QUEBRA_LINHA: Bytes := [0x0D, 0x0A]

  /** Text values the builder writes as literals. */
  const VAZIO: Value := Text([])
  const TEXTO_0: Value := Text([0x30])        // "0"
  const TEXTO_1: Value := Text([0x31])        // "1"
  const TEXTO_2: Value := Text([0x32])        // "2"
  const TEXTO_14: Value := Text([0x31, 0x34]) // "14"
  const TEXTO_R: Value := Text([0x52])        // "R"

  predicate IsDigit(b: Byte) { 0x30 <= b <= 0x39 }

  /** The number a string of decimal digits spells, read most significant first. */
  function DigitsValue(s: Bytes): int
  {
    if s == [] then 0 else DigitsValue(s[..|s| - 1]) * 10 + (s[|s| - 1] as int - 0x30)
  }

  /** The decimal digits of n, most significant first, without leading zeros. */
  function Digits(n: nat): (r: Bytes)
    ensures r != [] && forall i :: 0 <= i < |r| ==> IsDigit(r[i])
    ensures n > 0 ==> r[0] != 0x30
    ensures DigitsValue(r) == n
    decreases n
  {
    if n < 10 then [0x30 + n]
    else
      var r := Digits(n / 10) + [0x30 + n % 10];
      assert r[..|r| - 1] == Digits(n / 10);
      r
  }

  /** The string PHP converts an integer to: '-' and the digits of -i when negative. */
  function DecimalText(i: int): (r: Bytes)
    ensures r != []
    ensures i >= 0 ==> (forall k :: 0 <= k < |r| ==> IsDigit(r[k])) && DigitsValue(r) == i
    ensures i < 0 ==> r[0] == 0x2D && (forall k :: 1 <= k < |r| ==> IsDigit(r[k]))
                      && |r| >= 2 && DigitsValue(r[1..]) == -i
  {
    if i < 0 then
      var r := [0x2D] + Digits(-i);
      assert r[1..] == Digits(-i);
      r
    else Digits(i)
  }

  /**
   * The string a field value is read as by the text helpers. A date has no
   * string conversion (the source would fail on it) and reads as empty.
   */
  function AsText(v: Value): (r: Bytes)
    ensures v.Text? ==> r == v.s
    ensures v.Null? ==> r == []
    ensures v.Int? ==> r == DecimalText(v.i)
    ensures v.Date? ==> r == []
  {
    match v
    case Text(s) => s
    case Int(i) => DecimalText(i)
    case Null => []
    case Date(_) => []
  }

  /** The integer an amount field is read as when summed: anything else counts 0. */
  function AsInt(v: Value): (i: int)
    ensures v.Int? ==> i == v.i
    ensures !v.Int? ==> i == 0
  {
    if v.Int? then v.i else 0
  }

  /** str_pad(s, n, c, STR_PAD_LEFT): pads on the left up to n bytes, never truncates. */
  function PadLeft(s: Bytes, n: nat, c: Byte): (r: Bytes)
    ensures |r| == if |s| >= n then |s| else n
    ensures r[|r| - |s|..] == s
    ensures forall i :: 0 <= i < |r| - |s| ==> r[i] == c
  {
    if |s| >= n then s else seq(n - |s|, _ => c) + s
  }
}
