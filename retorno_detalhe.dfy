/**
 * The query layer of a CNAB 240 retorno detail: one title's Segment T and
 * Segment U, already decoded field by field, and the pure getters that turn
 * those raw values into business values (write-off flags, document and
 * "nosso número" identifiers, dates, wallet, status and reason names).
 */
module RetornoDetalhe {
  import opened Wrappers
  import opened Calendar
  import Banco

  /** Segment T: title identity and status, as the record decoder produced it. */
  datatype SegmentoT = SegmentoT(
    codigoMovimento: int,
    numeroDocumento: string,
    nossoNumero: string,
    dataVencimento: int,
    valorTitulo: int,
    valorTarifa: int,
    /** present only when the bank's layout defines the field */
    carteira: Option<string>,
    agenciaMantenedora: string,
    agenciaDv: string,
    agenciaCobradora: string,
    agenciaCobradoraDac: string,
    numeroSequencialLote: int,
    motivoOcorrencia: string,
    nomeSacado: string,
    documentoSacado: string)

  /** Segment U: the financial movement (amounts in cents) and its dates. */
  datatype SegmentoU = SegmentoU(
    valorLiquido: int,
    valorPago: int,
    valorIof: int,
    valorDesconto: int,
    valorAbatimento: int,
    valorOutrasDespesas: int,
    valorOutrosCreditos: int,
    valorAcrescimos: int,
    dataCredito: int,
    dataOcorrencia: int)

  /**
   * A retorno detail: the bank code and covenant code of the file it was
   * read from, and its two segments.
   */
  datatype Detalhe = Detalhe(
    codigoBanco: int,
    codigoConvenio: string,
    segmentoT: SegmentoT,
    segmentoU: SegmentoU)

  // ---------------------------------------------------------------------
  // Movement classification

  const TIPO_BAIXA: seq<int> := [6, 9, 17, 25]
  const TIPO_BAIXA_REJEITADA: seq<int> := [3, 26, 30]

  /** Whether a movement code means the title was written off. */
  function IsBaixaStatic(codigoMovimento: int): (b: bool)
    ensures b <==> codigoMovimento == 6 || codigoMovimento == 9
                   || codigoMovimento == 17 || codigoMovimento == 25
  {
    codigoMovimento in TIPO_BAIXA
  }

  /** Whether a movement code means a write-off request was rejected. */
  function IsBaixaRejeitadaCodigo(codigoMovimento: int): (b: bool)
    ensures b <==> codigoMovimento == 3 || codigoMovimento == 26 || codigoMovimento == 30
  {
    codigoMovimento in TIPO_BAIXA_REJEITADA
  }

  // ---------------------------------------------------------------------
  // Passthrough getters: each reads one decoded field unchanged

  function ValorRecebido(d: Detalhe): int { d.segmentoU.valorLiquido }
  function ValorTitulo(d: Detalhe): int { d.segmentoT.valorTitulo }
  function ValorPago(d: Detalhe): int { d.segmentoU.valorPago }
  function ValorTarifa(d: Detalhe): int { d.segmentoT.valorTarifa }
  function ValorIof(d: Detalhe): int { d.segmentoU.valorIof }
  function ValorDesconto(d: Detalhe): int { d.segmentoU.valorDesconto }
  function ValorAbatimento(d: Detalhe): int { d.segmentoU.valorAbatimento }
  function ValorOutrasDespesas(d: Detalhe): int { d.segmentoU.valorOutrasDespesas }
  function ValorOutrosCreditos(d: Detalhe): int { d.segmentoU.valorOutrosCreditos }
  function ValorMoraMulta(d: Detalhe): int { d.segmentoU.valorAcrescimos }
  function Agencia(d: Detalhe): string { d.segmentoT.agenciaMantenedora }
  function AgenciaDv(d: Detalhe): string { d.segmentoT.agenciaDv }
  function AgenciaCobradora(d: Detalhe): string { d.segmentoT.agenciaCobradora }
  function AgenciaCobradoraDac(d: Detalhe): string { d.segmentoT.agenciaCobradoraDac }
  function NumeroSequencial(d: Detalhe): int { d.segmentoT.numeroSequencialLote }
  function NomeSacado(d: Detalhe): string { d.segmentoT.nomeSacado }
  function DocumentoSacado(d: Detalhe): string { d.segmentoT.documentoSacado }

  /** The movement code of the detail, read from Segment T. */
  function Codigo(d: Detalhe): int {
    d.segmentoT.codigoMovimento
  }

  function IsBaixa(d: Detalhe): (b: bool)
    ensures b <==> IsBaixaStatic(d.segmentoT.codigoMovimento)
  {
    IsBaixaStatic(Codigo(d))
  }

  function IsBaixaRejeitada(d: Detalhe): (b: bool)
    ensures b <==> IsBaixaRejeitadaCodigo(d.segmentoT.codigoMovimento)
  {
    IsBaixaRejeitadaCodigo(Codigo(d))
  }

  /** No detail is both a write-off and a rejected write-off. */
  lemma BaixaExcludesBaixaRejeitada(d: Detalhe)
    ensures !(IsBaixa(d) && IsBaixaRejeitada(d))
  {
  }

  // ---------------------------------------------------------------------
  // Identifiers

  /** The index of the first character at or after from that is not '0', or |s|. */
  function FirstNonZero(s: string, from: nat): (i: nat)
    requires from <= |s|
    ensures from <= i <= |s|
    ensures forall j :: from <= j < i ==> s[j] == '0'
    ensures i < |s| ==> s[i] != '0'
    decreases |s| - from
  {
    if from == |s| || s[from] != '0' then from else FirstNonZero(s, from + 1)
  }

  /** The length of s once the '0' characters at or before index upto - 1 are dropped from its end. */
  function LastNonZeroEnd(s: string, upto: nat): (e: nat)
    requires upto <= |s|
    ensures e <= upto
    ensures forall j :: e <= j < upto ==> s[j] == '0'
    ensures e > 0 ==> s[e - 1] != '0'
    decreases upto
  {
    if upto == 0 || s[upto - 1] != '0' then upto else LastNonZeroEnd(s, upto - 1)
  }

  /** PHP's ltrim(s, '0'): strips the leading '0' characters. */
  function StripLeadingZeros(s: string): (r: string)
    ensures |r| <= |s| && r == s[|s| - |r|..]
    ensures r == [] || r[0] != '0'
    ensures forall i :: 0 <= i < |s| - |r| ==> s[i] == '0'
  {
    s[FirstNonZero(s, 0)..]
  }

  /** PHP's rtrim(s, '0'): strips the trailing '0' characters. */
  function StripTrailingZeros(s: string): (r: string)
    ensures |r| <= |s| && r == s[..|r|]
    ensures r == [] || r[|r| - 1] != '0'
    ensures forall i :: |r| <= i < |s| ==> s[i] == '0'
  {
    s[..LastNonZeroEnd(s, |s|)]
  }

  /** PHP's trim(s, '0'): strips '0' characters from both ends. */
  function TrimZeros(s: string): (r: string)
    ensures |r| <= |s|
    ensures r == [] || (r[0] != '0' && r[|r| - 1] != '0')
  {
    StripTrailingZeros(StripLeadingZeros(s))
  }

  /** The document number, or none when the field holds only zeros. */
  function NumeroDocumento(d: Detalhe): (r: Option<string>)
    ensures r.None? <==>
              forall i :: 0 <= i < |d.segmentoT.numeroDocumento| ==> d.segmentoT.numeroDocumento[i] == '0'
    ensures r.Some? ==> r.value == d.segmentoT.numeroDocumento
  {
    var numeroDocumento := d.segmentoT.numeroDocumento;
    TrimZerosEmptyIff(numeroDocumento);
    if TrimZeros(numeroDocumento) == [] then None else Some(numeroDocumento)
  }

  /** Trimming zeros leaves nothing exactly when every character is '0'. */
  lemma TrimZerosEmptyIff(s: string)
    ensures TrimZeros(s) == [] <==> forall i :: 0 <= i < |s| ==> s[i] == '0'
  {
    var l := StripLeadingZeros(s);
    if exists k :: 0 <= k < |s| && s[k] != '0' {
      var k :| 0 <= k < |s| && s[k] != '0';
      assert k >= |s| - |l|;
      assert l[k - (|s| - |l|)] == s[k];
    }
  }

  ghost predicate IsSubstring(r: string, s: string) {
    exists i, j :: 0 <= i <= j <= |s| && r == s[i..j]
  }

  /** The "nosso número" with the bank-specific rewrites. */
  function NossoNumero(d: Detalhe): (r: string)
    ensures var raw := d.segmentoT.nossoNumero;
            var conv := d.codigoConvenio;
            && (d.codigoBanco == Banco.BANCO_DO_BRASIL ==>
                  r == if |conv| <= |raw| && raw[..|conv|] == conv then raw[|conv|..] else raw)
            && (d.codigoBanco == Banco.SANTANDER ==>
                  r == if raw == [] then [] else raw[..|raw| - 1])
            && (d.codigoBanco != Banco.BANCO_DO_BRASIL && d.codigoBanco != Banco.SANTANDER ==> r == raw)
    ensures IsSubstring(r, d.segmentoT.nossoNumero)
  {
    var raw := d.segmentoT.nossoNumero;
    // Banco do Brasil: the covenant code is removed once, when it is a prefix.
    var afterConvenio :=
      if d.codigoBanco == Banco.BANCO_DO_BRASIL then RemovePrefix(raw, d.codigoConvenio) else raw;
    // Santander: the trailing check digit is dropped.
    var r := if d.codigoBanco == Banco.SANTANDER then DropLast(afterConvenio) else afterConvenio;
    assert IsSubstring(r, raw) by {
      if d.codigoBanco == Banco.BANCO_DO_BRASIL && afterConvenio != raw {
        assert r == raw[|d.codigoConvenio|..|raw|];
      } else if d.codigoBanco == Banco.SANTANDER {
        assert r == raw[0..|r|];
      } else {
        assert r == raw[0..|raw|];
      }
    }
    r
  }

  /** The covenant-prefix rule: s without prefix when s starts with it, s itself otherwise. */
  function RemovePrefix(s: string, prefix: string): (r: string)
    ensures prefix <= s ==> r == s[|prefix|..] && prefix + r == s
    ensures !(prefix <= s) ==> r == s
  {
    if |prefix| <= |s| && s[..|prefix|] == prefix then s[|prefix|..] else s
  }

  /** PHP's substr(s, 0, -1). */
  function DropLast(s: string): (r: string)
    ensures |r| == if s == [] then 0 else |s| - 1
    ensures r == s[..|r|]
  {
    if s == [] then [] else s[..|s| - 1]
  }

  /** The example of the covenant-prefix rule: covenant "1234", field "1234567890". */
  lemma NossoNumeroConvenioExample(d: Detalhe)
    requires d.codigoBanco == Banco.BANCO_DO_BRASIL
    requires d.codigoConvenio == "1234" && d.segmentoT.nossoNumero == "1234567890"
    ensures NossoNumero(d) == "567890"
  {
  }

  // ---------------------------------------------------------------------
  // Dates

  /**
   * Decodes an 8-digit ddmmyyyy field into a date at 00:00:00. Zero (a blank
   * field) means no date; a value that does not print as exactly eight
   * digits does not match the dmY format either.
   */
  function DecodeDate(v: int): (r: Option<DateTime>)
    ensures r.None? <==> v == 0 || v < 0 || v >= 100000000
    ensures r.Some? ==> IsDmyMidnight(r.value, v)
  {
    if v == 0 || v < 0 || v >= 100000000 then None
    else Some(DateTime(v % 10000, (v / 10000) % 100, v / 1000000, 0, 0, 0))
  }

  /**
   * t is the date a ddmmyyyy field v names, at 00:00:00: day and month have
   * two digits, the year four, and together they spell v.
   */
  predicate IsDmyMidnight(t: DateTime, v: int) {
    && t.hour == 0 && t.minute == 0 && t.second == 0
    && 0 <= t.day < 100 && 0 <= t.month < 100 && 0 <= t.year < 10000
    && t.day * 1000000 + t.month * 10000 + t.year == v
  }

  /** The digits of a decoded date, as the field carried them. */
  function EncodeDate(t: DateTime): int {
    t.day * 1000000 + t.month * 10000 + t.year
  }

  /** Decoding then re-encoding gives back the field, and decoding is determined by the split. */
  lemma DecodeDateRoundTrip(day: int, month: int, year: int)
    requires 0 <= day < 100 && 0 <= month < 100 && 0 <= year < 10000
    requires day * 1000000 + month * 10000 + year != 0
    ensures DecodeDate(EncodeDate(DateTime(year, month, day, 0, 0, 0))) == Some(DateTime(year, month, day, 0, 0, 0))
  {
    var v := day * 1000000 + month * 10000 + year;
    assert v < 100000000;
    var t := DecodeDate(v).value;
    assert t.day * 1000000 + t.month * 10000 + t.year == v;
    assert t.day == day by {
      assert t.day * 1000000 <= v < (t.day + 1) * 1000000;
      assert day * 1000000 <= v < (day + 1) * 1000000;
    }
    assert t.month == month by {
      assert t.month * 10000 + t.year == month * 10000 + year;
    }
  }

  lemma DecodeDateExamples()
    ensures DecodeDate(0) == None
    ensures DecodeDate(25122024) == Some(DateTime(2024, 12, 25, 0, 0, 0))
  {
  }

  function DataVencimento(d: Detalhe): (r: Option<DateTime>)
    ensures r.None? <==> d.segmentoT.dataVencimento == 0 || d.segmentoT.dataVencimento < 0
                         || d.segmentoT.dataVencimento >= 100000000
    ensures r.Some? ==> IsDmyMidnight(r.value, d.segmentoT.dataVencimento) && EncodeDate(r.value) == d.segmentoT.dataVencimento
  {
    DecodeDate(d.segmentoT.dataVencimento)
  }

  function DataCredito(d: Detalhe): (r: Option<DateTime>)
    ensures r.None? <==> d.segmentoU.dataCredito == 0 || d.segmentoU.dataCredito < 0
                         || d.segmentoU.dataCredito >= 100000000
    ensures r.Some? ==> IsDmyMidnight(r.value, d.segmentoU.dataCredito) && EncodeDate(r.value) == d.segmentoU.dataCredito
  {
    DecodeDate(d.segmentoU.dataCredito)
  }

  function DataOcorrencia(d: Detalhe): (r: Option<DateTime>)
    ensures r.None? <==> d.segmentoU.dataOcorrencia == 0 || d.segmentoU.dataOcorrencia < 0
                         || d.segmentoU.dataOcorrencia >= 100000000
    ensures r.Some? ==> IsDmyMidnight(r.value, d.segmentoU.dataOcorrencia) && EncodeDate(r.value) == d.segmentoU.dataOcorrencia
  {
    DecodeDate(d.segmentoU.dataOcorrencia)
  }

  // ---------------------------------------------------------------------
  // Wallet

  /** The wallet: never informative for CEF (104), else Segment T's field when the layout has one. */
  function Carteira(d: Detalhe): (r: Option<string>)
    ensures d.codigoBanco == Banco.CEF ==> r == None
    ensures d.codigoBanco != Banco.CEF ==> r == d.segmentoT.carteira
  {
    if d.codigoBanco == 104 then None
    else if d.segmentoT.carteira.Some? then Some(d.segmentoT.carteira.value)
    else None
  }

  // ---------------------------------------------------------------------
  // Movement names

  const DESCONHECIDO: string := "Desconhecido"

  function CodigoNomeTable(k: int): Option<string> {
    match k
    case 2 => Some("Entrada confirmada")
    case 3 => Some("Entrada rejeitada")
    case 4 => Some("Transferência de Carteira/Entrada")
    case 5 => Some("Transferência de Carteira/Baixa")
    case 6 => Some("Liquidação")
    case 7 => Some("Confirmação do Recebimento da Instrução de Desconto")
    case 8 => Some("Confirmação do Recebimento do Cancelamento do Desconto")
    case 9 => Some("Baixa")
    case 11 => Some("Títulos em Carteira (Em Ser)")
    case 12 => Some("Confirmação Recebimento Instrução de Abatimento")
    case 13 => Some("Confirmação Recebimento Instrução de Cancelamento Abatimento")
    case 14 => Some("Confirmação Recebimento Instrução Alteração de Vencimento")
    case 15 => Some("Franco de Pagamento")
    case 17 => Some("Liquidação Após Baixa ou Liquidação Título Não Registrado")
    case 19 => Some("Confirmação Recebimento Instrução de Protesto")
    case 20 => Some("Confirmação Recebimento Instrução de Sustação/Cancelamento de Protesto")
    case 23 => Some("Remessa a Cartório (Aponte em Cartório)")
    case 24 => Some("Retirada de Cartório e Manutenção em Carteira")
    case 25 => Some("Protestado e Baixado (Baixa por Ter Sido Protestado)")
    case 26 => Some("Instrução rejeitada")
    case 27 => Some("Confirmação do Pedido de Alteração de Outros Dados")
    case 28 => Some("Débito de Tarifas/Custas")
    case 29 => Some("Ocorrências do Pagador")
    case 30 => Some("Alteração de Dados Rejeitada")
    case 33 => Some("Confirmação da Alteração dos Dados do Rateio de Crédito")
    case 34 => Some("Confirmação do Cancelamento dos Dados do Rateio de Crédito")
    case 35 => Some("Confirmação do Desagendamento do Débito Automático")
    case 36 => Some("Confirmação de envio de e-mail/SMS")
    case 37 => Some("Envio de e-mail/SMS rejeitado")
    case 38 => Some("Confirmação de alteração do Prazo Limite de Recebimento (a data deve ser")
    case 39 => Some("Confirmação de Dispensa de Prazo Limite de Recebimento")
    case 40 => Some("Confirmação da alteração do número do título dado pelo Beneficiário")
    case 41 => Some("Confirmação da alteração do número controle do Participante")
    case 42 => Some("Confirmação da alteração dos dados do Pagador")
    case 43 => Some("Confirmação da alteração dos dados do Pagadorr/Avalista")
    case 44 => Some("Título pago com cheque devolvido")
    case 45 => Some("Título pago com cheque compensado")
    case 46 => Some("Instrução para cancelar protesto confirmada")
    case 47 => Some("Instrução para protesto para fins falimentares confirmada")
    case 48 => Some("Confirmação de instrução de transferência de carteira/modalidade de cobrança")
    case 49 => Some("Alteração de contrato de cobrança")
    case 50 => Some("Título pago com cheque pendente de liquidação")
    case 51 => Some("Título DDA reconhecido pelo Pagador")
    case 52 => Some("Título DDA não reconhecido pelo Pagador")
    case 53 => Some("Título DDA recusado pela CIP")
    case 54 => Some("Confirmação da Instrução de Baixa/Cancelamento de Título Negativado sem Protesto")
    case 55 => Some("Confirmação de Pedido de Dispensa de Multa")
    case 56 => Some("Confirmação do Pedido de Cobrança de Multa")
    case 57 => Some("Confirmação do Pedido de Alteração de Cobrança de Juros")
    case 58 => Some("Confirmação do Pedido de Alteração do Valor/Data de Desconto")
    case 59 => Some("Confirmação do Pedido de Alteração do Beneficiário do Título")
    case 60 => Some("Confirmação do Pedido de Dispensa de Juros de Mora")
    case 80 => Some("Confirmação da instrução de negativação")
    case 85 => Some("Confirmação de Desistência de Protesto")
    case 86 => Some("Confirmação de cancelamento do Protesto")
    case _ => None
  }

  /**
   * The name of a movement code, "Desconhecido" when the table has none; no
   * table entry is itself "Desconhecido", so that answer means exactly an
   * unlisted code.
   */
  function CodigoNomeFor(codigo: int): (r: string)
    ensures CodigoNomeTable(codigo).Some? ==> r == CodigoNomeTable(codigo).value
    ensures r == DESCONHECIDO <==> CodigoNomeTable(codigo).None?
  {
    match CodigoNomeTable(codigo)
    case Some(nome) => nome
    case None => DESCONHECIDO
  }

  /** getCodigoNome: the name of the detail's movement code. */
  function CodigoNome(d: Detalhe): (r: string)
    ensures CodigoNomeTable(d.segmentoT.codigoMovimento).Some? ==>
              r == CodigoNomeTable(d.segmentoT.codigoMovimento).value
    ensures r == DESCONHECIDO <==> CodigoNomeTable(d.segmentoT.codigoMovimento).None?
  {
    CodigoNomeFor(Codigo(d))
  }

  /** Every write-off and every rejected write-off code has a name. */
  lemma ClassifiedCodesAreNamed(codigo: int)
    requires IsBaixaStatic(codigo) || IsBaixaRejeitadaCodigo(codigo)
    ensures CodigoNomeFor(codigo) != DESCONHECIDO
  {
  }

  lemma CodigoNomeExamples()
    ensures CodigoNomeFor(6) == "Liquidação"
    ensures CodigoNomeFor(1) == DESCONHECIDO
    ensures CodigoNomeFor(10) == DESCONHECIDO
    ensures CodigoNomeFor(999) == DESCONHECIDO
  {
  }

  // ---------------------------------------------------------------------
  // Reason names

  /** The reason code with its leading zeros stripped (PHP's ltrim(s, '0')). */
  function MotivoOcorrenciaFor(motivo: string): (r: string)
    ensures |r| <= |motivo|
    ensures r == motivo[|motivo| - |r|..]
    ensures r == [] || r[0] != '0'
    ensures forall i :: 0 <= i < |motivo| - |r| ==> motivo[i] == '0'
  {
    StripLeadingZeros(motivo)
  }

  /** getMotivoOcorrencia: the detail's reason code without its leading zeros. */
  function MotivoOcorrencia(d: Detalhe): (r: string)
    ensures var motivo := d.segmentoT.motivoOcorrencia;
      && |r| <= |motivo| && r == motivo[|motivo| - |r|..]
      && (r == [] || r[0] != '0')
      && forall i :: 0 <= i < |motivo| - |r| ==> motivo[i] == '0'
  {
    MotivoOcorrenciaFor(d.segmentoT.motivoOcorrencia)
  }

  /** Settlement channel, for movement 6. */
  function TableCodigo6(k: string): Option<string> {
    if |k| == 1 then
      (match k[0]
      case '1' => Some("Por saldo")
      case '2' => Some("Por conta")
      case '3' => Some("Liquidação no guichê de caixa em dinheiro")
      case '4' => Some("Compensação eletrônica")
      case '5' => Some("Compensação convencional")
      case '6' => Some("Por meio eletrônico")
      case '7' => Some("Após feriado local")
      case '8' => Some("Em cartório")
      case _ => None)
    else if |k| == 2 then
      (match k[0]
      case '3' =>
        (match k[1]
        case '0' => Some("Liquidação no guichê de caixa em cheque")
        case '1' => Some("Liquidação em banco correspondente")
        case '2' => Some("Liquidação terminal de auto-atendimento")
        case '3' => Some("Liquidação na internet (Home banking)")
        case '4' => Some("Liquidado office banking")
        case '5' => Some("Liquidado correspondente em dinheiro")
        case '6' => Some("Liquidado correspondente em cheque")
        case '7' => Some("Liquidado por meio de central de atendimento (Telefone)")
        case _ => None)
      case '6' =>
        (match k[1]
        case '1' => Some("Liquidado via PIX")
        case _ => None)
      case _ => None)
    else None
  }

  /** Write-off trigger, for movement 9. */
  function TableCodigo9(k: string): Option<string> {
    if |k| == 1 then
      (match k[0]
      case '9' => Some("Comandada banco")
      case _ => None)
    else if |k| == 2 then
      (match k[0]
      case '1' =>
        (match k[1]
        case '0' => Some("Comandada cliente arquivo")
        case '1' => Some("Comandada cliente on-line")
        case '2' => Some("Decurso prazo - cliente")
        case '3' => Some("Decurso prazo - banco")
        case '4' => Some("Protestado")
        case '5' => Some("Título excluído")
        case _ => None)
      case _ => None)
    else None
  }

  /** Rejection reasons, shared by movements 2, 3 and 26 (and the fall-back of 6 and 9). */
  function TableCodigo2326(k: string): Option<string> {
    if |k| == 1 then
      (match k[0]
      case '1' => Some("Código do Banco Inválido")
      case '2' => Some("Código do Registro Detalhe Inválido")
      case '3' => Some("Código do Segmento Inválido")
      case '4' => Some("Código de Movimento Não Permitido para Carteira")
      case '5' => Some("Código de Movimento Inválido")
      case '6' => Some("Tipo/Número de Inscrição do Beneficiário Inválidos")
      case '7' => Some("Agência/Conta/DV Inválido")
      case '8' => Some("Nosso número inválido")
      case '9' => Some("Nosso número duplicado")
      case _ => None)
    else if |k| == 2 then
      (match k[0]
      case '1' =>
        (match k[1]
        case '0' => Some("Carteira Inválida")
        case '1' => Some("Forma de Cadastramento do Título Inválido")
        case '2' => Some("Tipo de Documento Inválido")
        case '3' => Some("Identificação da Emissão do Boleto de Pagamento Inválida")
        case '4' => Some("Identificação da Distribuição do Boleto de Pagamento Inválida")
        case '5' => Some("Características da Cobrança Incompatíveis")
        case '6' => Some("Data de Vencimento Inválida")
        case '7' => Some("Data de Vencimento Anterior a Data de Emissão")
        case '8' => Some("Vencimento Fora do Prazo de Operação")
        case '9' => Some("Título a Cargo de Bancos Correspondentes com Vencimento Inferior a XX Dias")
        case _ => None)
      case '2' =>
        (match k[1]
        case '0' => Some("Valor do Título Inválido")
        case '1' => Some("Espécie do Título Inválida")
        case '2' => Some("Espécie do Título Não Permitida para a Carteira")
        case '3' => Some("Aceite Inválido")
        case '4' => Some("Data da Emissão Inválida")
        case '5' => Some("Data da Emissão Posterior a Data de Entrada")
        case '6' => Some("Código de Juros de Mora Inválido")
        case '7' => Some("Valor/Taxa de Juros de Mora Inválido")
        case '8' => Some("Código do Desconto Inválido")
        case '9' => Some("Valor do Desconto Maior ou Igual ao Valor do Título")
        case _ => None)
      case '3' =>
        (match k[1]
        case '0' => Some("Desconto a Conceder Não Confere")
        case '1' => Some("Concessão de Desconto - Já Existe Desconto Anterior")
        case '2' => Some("Valor do IOF Inválido")
        case '3' => Some("Valor do Abatimento Inválido")
        case '4' => Some("Valor do Abatimento Maior ou Igual ao Valor do Título")
        case '5' => Some("Valor a Conceder Não Confere")
        case '6' => Some("Concessão de Abatimento - Já Existe Abatimento Anterior")
        case '7' => Some("Código para Protesto Inválido")
        case '8' => Some("Prazo para Protesto Inválido")
        case '9' => Some("Pedido de Protesto Não Permitido para o Título")
        case _ => None)
      case '4' =>
        (match k[1]
        case '0' => Some("Título com Ordem de Protesto Emitida")
        case '1' => Some("Pedido de Cancelamento/Sustação para Títulos sem Instrução de Protesto")
        case '2' => Some("Código para Baixa/Devolução Inválido")
        case '3' => Some("Prazo para Baixa/Devolução Inválido")
        case '4' => Some("Código da Moeda Inválido")
        case '5' => Some("Nome do Pagador Não Informado")
        case '6' => Some("Tipo/Número de Inscrição do Pagador Inválidos")
        case '7' => Some("Endereço do Pagador Não Informado")
        case '8' => Some("CEP Inválido")
        case '9' => Some("CEP Sem Praça de Cobrança (Não Localizado)")
        case _ => None)
      case '5' =>
        (match k[1]
        case '0' => Some("CEP Referente a um Banco Correspondente")
        case '1' => Some("CEP incompatível com a Unidade da Federação")
        case '2' => Some("Unidade da Federação Inválida")
        case '3' => Some("Tipo/Número de Inscrição do Sacador/Avalista Inválidos")
        case '4' => Some("Sacador/Avalista Não Informado")
        case '5' => Some("Nosso número no Banco Correspondente Não Informado")
        case '6' => Some("Código do Banco Correspondente Não Informado")
        case '7' => Some("Código da Multa Inválido")
        case '8' => Some("Data da Multa Inválida")
        case '9' => Some("Valor/Percentual da Multa Inválido")
        case _ => None)
      case '6' =>
        (match k[1]
        case '0' => Some("Movimento para Título Não Cadastrado")
        case '1' => Some("Alteração da Agência Cobradora/DV Inválida")
        case '2' => Some("Tipo de Impressão Inválido")
        case '3' => Some("Entrada para Título já Cadastrado")
        case '4' => Some("Número da Linha Inválido")
        case '5' => Some("Código do Banco para Débito Inválido")
        case '6' => Some("Agência/Conta/DV para Débito Inválido")
        case '7' => Some("Dados para Débito incompatível com a Identificação da Emissão do Boleto de Pagamento")
        case '8' => Some("Débito Automático Agendado")
        case '9' => Some("Débito Não Agendado - Erro nos Dados da Remessa")
        case _ => None)
      case '7' =>
        (match k[1]
        case '0' => Some("Débito Não Agendado - Pagador Não Consta do Cadastro de Autorizante")
        case '1' => Some("Débito Não Agendado - Beneficiário Não Autorizado pelo Pagador")
        case '2' => Some("Débito Não Agendado - Beneficiário Não Participa da Modalidade Automático")
        case '3' => Some("Débito Não Agendado - Código de Moeda Diferente de Real (R$)")
        case '4' => Some("Débito Não Agendado - Data Vencimento Inválida")
        case '5' => Some("Débito Não Agendado, Conforme seu Pedido, Título Não Registrado")
        case '6' => Some("Débito Não Agendado, Tipo/Num. Inscrição do Debitado, Inválido")
        case '7' => Some("Transferência para Desconto Não Permitida para a Carteira do Título")
        case '8' => Some("Data Inferior ou Igual ao Vencimento para Débito Automático")
        case '9' => Some("Data Juros de Mora Inválido")
        case _ => None)
      case '8' =>
        (match k[1]
        case '0' => Some("Data do Desconto Inválida")
        case '1' => Some("Tentativas de Débito Esgotadas - Baixado")
        case '2' => Some("Tentativas de Débito Esgotadas - Pendente")
        case '3' => Some("Limite Excedido")
        case '4' => Some("Número Autorização Inexistente")
        case '5' => Some("Título com Pagamento Vinculado")
        case '6' => Some("Seu Número Inválido")
        case '7' => Some("e-mail/SMS enviado")
        case '8' => Some("e-mail Lido")
        case '9' => Some("e-mail/SMS devolvido - endereço de e-mail ou número do celular incorreto")
        case _ => None)
      case '9' =>
        (match k[1]
        case '0' => Some("e-mail devolvido - caixa postal cheia")
        case '1' => Some("e-mail/número do celular do Pagador não informado")
        case '2' => Some("Pagador optante por Boleto de Pagamento Eletrônico - e-mail não enviado")
        case '3' => Some("Código para emissão de Boleto de Pagamento não permite envio de e-mail")
        case '4' => Some("Código da Carteira inválido para envio e-mail.")
        case '5' => Some("Contrato não permite o envio de e-mail")
        case '6' => Some("Número de contrato inválido")
        case '7' => Some("Rejeição da alteração do prazo limite de recebimento (a data deve ser informada no campo 28.3.p)")
        case '8' => Some("Rejeição de dispensa de prazo limite de recebimento")
        case '9' => Some("Rejeição da alteração do número do título dado pelo Beneficiário")
        case _ => None)
      case 'A' =>
        (match k[1]
        case '1' => Some("Rejeição da alteração do número controle do participante")
        case '2' => Some("Rejeição da alteração dos dados do Pagador")
        case '3' => Some("Rejeição da alteração dos dados do Sacador/avalista")
        case '4' => Some("Pagador DDA")
        case '5' => Some("Registro Rejeitado – Título já Liquidado")
        case '6' => Some("Código do Convenente Inválido ou Encerrado")
        case '7' => Some("Título já se encontra na situação Pretendida")
        case '8' => Some("Valor do Abatimento inválido para cancelamento")
        case '9' => Some("Não autoriza pagamento parcial")
        case _ => None)
      case 'B' =>
        (match k[1]
        case '1' => Some("Autoriza recebimento parcial")
        case '2' => Some("Valor Nominal do Título Conflitante")
        case '3' => Some("Tipo de Pagamento Inválido")
        case '4' => Some("Valor Máximo/Percentual Inválido")
        case '5' => Some("Valor Mínimo/Percentual Inválido")
        case _ => None)
      case 'P' =>
        (match k[1]
        case '1' => Some("Registrado com QR Code Pix")
        case '2' => Some("Registrado sem QR Code Pix")
        case '3' => Some("Chave PIX – chave invalida")
        case '4' => Some("Chave PIX – sem cadastro na DICT")
        case '5' => Some("Chave PIX – não é compatível com o CNPJ")
        case '6' => Some("Identificador (TXID) – em duplicidade")
        case '7' => Some("Identificador (TXID) – inválido ou não encontrado")
        case '8' => Some("Ocorrência – alterar QR Code – alteração não permitida")
        case '9' => Some("ocorrência – cancela QR Code – cancelamento n]ao permitido")
        case _ => None)
      case _ => None)
    else None
  }

  /** Whether a movement code carries a reason name at all. */
  predicate HasMotivo(codigo: int) {
    codigo in [6, 9, 2, 3, 26]
  }

  /**
   * The name of the reason of a movement, keyed by the zero-stripped reason
   * code: none for movements other than 2, 3, 6, 9 and 26; movements 6 and 9
   * try their own table first and then, like 2, 3 and 26, the shared
   * rejection table; "Desconhecido" when no table has the reason.
   */
  function MotivoOcorrenciaNomeFor(codigo: int, motivo: string): (r: Option<string>)
    ensures r.None? <==> !(codigo == 2 || codigo == 3 || codigo == 6 || codigo == 9 || codigo == 26)
  {
    var m := MotivoOcorrenciaFor(motivo);
    if !HasMotivo(codigo) then None
    else if codigo == 6 && TableCodigo6(m).Some? then TableCodigo6(m)
    else if codigo == 9 && TableCodigo9(m).Some? then TableCodigo9(m)
    else if TableCodigo2326(m).Some? then TableCodigo2326(m)
    else Some(DESCONHECIDO)
  }

  /** getMotivoOcorrenciaNome: the name of the detail's reason, for the movements that have one. */
  function MotivoOcorrenciaNome(d: Detalhe): (r: Option<string>)
    ensures r.None? <==> !HasMotivo(d.segmentoT.codigoMovimento)
    ensures var c := d.segmentoT.codigoMovimento;
      var m := MotivoOcorrencia(d);
      var own := if c == 6 then TableCodigo6(m) else if c == 9 then TableCodigo9(m) else None;
      HasMotivo(c) ==>
        && (own.Some? ==> r == own)
        && (own.None? && TableCodigo2326(m).Some? ==> r == TableCodigo2326(m))
        && (own.None? && TableCodigo2326(m).None? ==> r == Some(DESCONHECIDO))
  {
    MotivoOcorrenciaNomeFor(Codigo(d), d.segmentoT.motivoOcorrencia)
  }

  /** The table a reason name comes from, by movement code, with the 6/9 fall-through. */
  lemma MotivoOcorrenciaNomeLookup(codigo: int, motivo: string)
    requires HasMotivo(codigo)
    ensures var m := MotivoOcorrenciaFor(motivo);
            var r := MotivoOcorrenciaNomeFor(codigo, motivo);
            var own := if codigo == 6 then TableCodigo6(m)
                       else if codigo == 9 then TableCodigo9(m)
                       else None;
            && (own.Some? ==> r == own)
            && (own.None? && TableCodigo2326(m).Some? ==> r == TableCodigo2326(m))
            && (own.None? && TableCodigo2326(m).None? ==> r == Some(DESCONHECIDO))
  {
  }

  /** n '0' characters. */
  function Zeros(n: nat): (r: string)
    ensures |r| == n && forall i :: 0 <= i < n ==> r[i] == '0'
  {
    if n == 0 then "" else "0" + Zeros(n - 1)
  }

  /** Leading zeros of the reason code never change the name it maps to. */
  lemma {:induction false} MotivoLeadingZerosIgnored(codigo: int, zeros: nat, motivo: string)
    ensures MotivoOcorrenciaNomeFor(codigo, Zeros(zeros) + motivo)
            == MotivoOcorrenciaNomeFor(codigo, motivo)
  {
    LeadingZerosStripped(zeros, motivo);
  }

  lemma LeadingZerosStripped(zeros: nat, motivo: string)
    ensures MotivoOcorrenciaFor(Zeros(zeros) + motivo) == MotivoOcorrenciaFor(motivo)
  {
    var s := Zeros(zeros) + motivo;
    var i := zeros + FirstNonZero(motivo, 0);
    FirstNonZeroIs(s, i);
    assert s[i..] == motivo[FirstNonZero(motivo, 0)..];
  }

  /** The first non-'0' index is the one index with only '0's before it and a non-'0' (or the end) at it. */
  lemma FirstNonZeroIs(s: string, i: nat)
    requires i <= |s| && (forall j :: 0 <= j < i ==> s[j] == '0') && (i < |s| ==> s[i] != '0')
    ensures FirstNonZero(s, 0) == i
  {
  }

  /** Movement 6 with reason "09" is not a settlement channel and falls through to the rejection table. */
  lemma MotivoFallThroughExample()
    ensures MotivoOcorrenciaNomeFor(6, "09") == Some("Nosso número duplicado")
  {
    assert MotivoOcorrenciaFor("09") == "9" by {
      LeadingZerosStripped(1, "9");
      assert Zeros(1) + "9" == "09";
    }
    assert TableCodigo6("9").None?;
  }

  /** A listed settlement channel, given with a leading zero. */
  lemma MotivoSettlementExample()
    ensures MotivoOcorrenciaNomeFor(6, "061") == Some("Liquidado via PIX")
  {
    assert MotivoOcorrenciaFor("061") == "61" by {
      LeadingZerosStripped(1, "61");
      assert Zeros(1) + "61" == "061";
    }
  }

  /** An unlisted reason of a rejection, and a movement without reasons. */
  lemma MotivoUnknownExamples()
    ensures MotivoOcorrenciaNomeFor(2, "ZZ") == Some(DESCONHECIDO)
    ensures MotivoOcorrenciaNomeFor(17, "01") == None
  {
    assert MotivoOcorrenciaFor("ZZ") == "ZZ" by {
      FirstNonZeroIs("ZZ", 0);
      assert "ZZ"[0..] == "ZZ";
    }
    assert TableCodigo2326("ZZ").None?;
  }
}
