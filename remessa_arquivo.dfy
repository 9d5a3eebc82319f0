/**
 * The CNAB 240 remessa file builder (src/Cnab/Remessa/Cnab240/Arquivo.php).
 * An Arquivo is configured once with the company's settings, receives one
 * detail per collection title, and renders the file: file header, batch
 * header, the three segments of every title, batch trailer, file trailer.
 *
 * The module first defines, as functions, every record the builder fills
 * in and the outcome of each step; the class Arquivo then performs the
 * steps on its fields and is proved to produce exactly those values.
 */
module RemessaArquivo {
  import opened Wrappers
  import opened Banco
  import opened Calendar
  import opened TextNormalizer
  import opened RemessaRecords

  /**
   * The names of the settings configure reads. A setting under any other
   * name is never looked at, so the configuration array is modelled as a
   * map over these names.
   */
  datatype Chave =
    | DataGeracao | DataGravacao | NomeFantasia | RazaoSocial | TipoInscricao | CpfCnpj
    | Logradouro | Numero | Bairro | Cidade | Uf | Cep
    | Agencia | AgenciaDv | CodigoCedente | CodigoCedenteDv | AgenciaMaisCedenteDv
    | CodigoConvenio | NumeroSequencialArquivo

  /** The array key of a setting. */
  function Nome(k: Chave): string {
    match k
    case DataGeracao => "data_geracao"
    case DataGravacao => "data_gravacao"
    case NomeFantasia => "nome_fantasia"
    case RazaoSocial => "razao_social"
    case TipoInscricao => "tipo_inscricao"
    case CpfCnpj => "cpf_cnpj"
    case Logradouro => "logradouro"
    case Numero => "numero"
    case Bairro => "bairro"
    case Cidade => "cidade"
    case Uf => "uf"
    case Cep => "cep"
    case Agencia => "agencia"
    case AgenciaDv => "agencia_dv"
    case CodigoCedente => "codigo_cedente"
    case CodigoCedenteDv => "codigo_cedente_dv"
    case AgenciaMaisCedenteDv => "agencia_mais_cedente_dv"
    case CodigoConvenio => "codigo_convenio"
    case NumeroSequencialArquivo => "numero_sequencial_arquivo"
  }

  /** The configuration array: setting name to value. */
  type Config = map<Chave, Value>

  // =====================================================================
  // configure: the required settings

  const BASE_KEYS: seq<Chave> := [
    DataGeracao, DataGravacao, NomeFantasia, RazaoSocial, TipoInscricao, CpfCnpj,
    Logradouro, Numero, Bairro, Cidade, Uf, Cep]

  const CEF_BRADESCO_KEYS: seq<Chave> := [
    Agencia, AgenciaDv, CodigoCedente, CodigoCedenteDv, AgenciaMaisCedenteDv,
    CodigoConvenio, NumeroSequencialArquivo]

  const SICOOB_KEYS: seq<Chave> := [
    Agencia, AgenciaDv, CodigoCedente, CodigoCedenteDv, AgenciaMaisCedenteDv,
    NumeroSequencialArquivo]

  const BRADESCO_KEYS: seq<Chave> := [
    Agencia, AgenciaDv, CodigoCedente, CodigoCedenteDv, NumeroSequencialArquivo,
    CodigoConvenio, AgenciaMaisCedenteDv]

  /** The settings configure demands of a bank, in the order it checks them (repeats included). */
  function RequiredKeys(codigoBanco: int): (ks: seq<Chave>)
  {
    BASE_KEYS
    + (if codigoBanco == CEF || codigoBanco == BRADESCO then CEF_BRADESCO_KEYS else [])
    + (if codigoBanco == SICOOB then SICOOB_KEYS else [])
    + (if codigoBanco == BRADESCO then BRADESCO_KEYS else [])
  }

  /**
   * Every bank needs the twelve baseline settings; CEF, Bradesco and Sicoob
   * also need the account settings their headers copy.
   */
  lemma RequiredKeysCover(codigoBanco: int)
    ensures RequiredKeys(codigoBanco)[..12] == BASE_KEYS
    ensures codigoBanco !in {CEF, BRADESCO, SICOOB} ==> RequiredKeys(codigoBanco) == BASE_KEYS
    ensures codigoBanco in {CEF, BRADESCO, SICOOB} ==>
              forall k :: k in SICOOB_KEYS ==> k in RequiredKeys(codigoBanco)
    ensures codigoBanco in {CEF, BRADESCO} ==> CodigoConvenio in RequiredKeys(codigoBanco)
    ensures codigoBanco == SICOOB ==> CodigoConvenio !in RequiredKeys(codigoBanco)
  {
    var ks := RequiredKeys(codigoBanco);
    if codigoBanco in {CEF, BRADESCO} {
      assert ks[12..19] == CEF_BRADESCO_KEYS;
      assert CodigoConvenio == ks[17];
      forall k | k in SICOOB_KEYS ensures k in ks {
        var j :| 0 <= j < |SICOOB_KEYS| && SICOOB_KEYS[j] == k;
        assert k == ks[12 + (if j < 5 then j else 6)];
      }
    } else if codigoBanco == SICOOB {
      assert ks == BASE_KEYS + SICOOB_KEYS;
      forall k | k in SICOOB_KEYS ensures k in ks {
        var j :| 0 <= j < |SICOOB_KEYS| && SICOOB_KEYS[j] == k;
        assert k == ks[12 + j];
      }
    }
  }

  /** The exceptions configure throws. */
  datatype ConfigError =
    | MissingKey(key: Chave)    // 'Configuração "<key>" need to be set'
    | NotDateTime(key: Chave)   // "config '<key>' need to be instance of DateTime"

  /** The settings that must hold a date: the two whose names start with "data_". */
  predicate IsDataKey(k: Chave) {
    k == DataGeracao || k == DataGravacao
  }

  /** IsDataKey is exactly the name-prefix test configure makes. */
  lemma IsDataKeyIsNamePrefix(k: Chave)
    ensures IsDataKey(k) <==> |Nome(k)| >= 5 && Nome(k)[..5] == "data_"
  {
    match k
    case DataGeracao =>
    case DataGravacao =>
    case _ => assert Nome(k)[0] != 'd';
  }

  /** The check configure makes of one required setting. */
  function KeyError(params: Config, k: Chave): (e: Option<ConfigError>)
    ensures e.None? <==> k in params && (IsDataKey(k) ==> params[k].Date?)
    ensures e.Some? ==> e.value.key == k
    ensures e == Some(MissingKey(k)) <==> k !in params
  {
    if k !in params then Some(MissingKey(k))
    else if IsDataKey(k) && !params[k].Date? then Some(NotDateTime(k))
    else None
  }

  /** The position of the first required setting at or after from that fails its check, |ks| when none does. */
  function FirstBadKeyFrom(params: Config, ks: seq<Chave>, from: nat): (i: nat)
    requires from <= |ks|
    ensures from <= i <= |ks|
    ensures forall j :: from <= j < i ==> KeyError(params, ks[j]).None?
    ensures i < |ks| ==> KeyError(params, ks[i]).Some?
    decreases |ks| - from
  {
    if from == |ks| || KeyError(params, ks[from]).Some? then from else FirstBadKeyFrom(params, ks, from + 1)
  }

  /** The position of the first required setting that fails its check, |ks| when none does. */
  function FirstBadKey(params: Config, ks: seq<Chave>): (i: nat)
    ensures i <= |ks|
    ensures forall j :: 0 <= j < i ==> KeyError(params, ks[j]).None?
    ensures i < |ks| ==> KeyError(params, ks[i]).Some?
  {
    FirstBadKeyFrom(params, ks, 0)
  }

  /**
   * The configuration after the settings ks were copied from params, one
   * after the other (configure stops at the first absent one, so every
   * setting it copies is present).
   */
  function StoreKeys(cfg: Config, params: Config, ks: seq<Chave>): Config
    decreases |ks|
  {
    if ks == [] then cfg
    else
      var last := ks[|ks| - 1];
      var before := StoreKeys(cfg, params, ks[..|ks| - 1]);
      if last in params then before[last := params[last]] else before
  }

  /** What StoreKeys holds: the copied settings with their values from params, the rest as they were. */
  lemma {:induction false} StoreKeysContents(cfg: Config, params: Config, ks: seq<Chave>)
    ensures var r := StoreKeys(cfg, params, ks);
      && (forall k :: k in r <==> k in cfg || (k in ks && k in params))
      && (forall k :: k in ks && k in params ==> r[k] == params[k])
      && (forall k :: k in cfg && k !in ks ==> r[k] == cfg[k])
    decreases |ks|
  {
    if ks != [] {
      var init := ks[..|ks| - 1];
      StoreKeysContents(cfg, params, init);
      assert ks == init + [ks[|ks| - 1]];
    }
  }

  /** configure succeeds exactly when every required setting is present and every date setting holds a date. */
  lemma {:induction false} ConfigureSucceedsIff(codigoBanco: int, params: Config)
    ensures var ks := RequiredKeys(codigoBanco);
      FirstBadKey(params, ks) == |ks| <==>
        forall k :: k in ks ==> k in params && (IsDataKey(k) ==> params[k].Date?)
  {
    var ks := RequiredKeys(codigoBanco);
    var i := FirstBadKey(params, ks);
    if i == |ks| {
      forall k | k in ks ensures k in params && (IsDataKey(k) ==> params[k].Date?) {
        var j :| 0 <= j < |ks| && ks[j] == k;
        assert KeyError(params, ks[j]).None?;
      }
    }
  }

  /** Missing DataGeracao is always the first complaint: it heads every key list. */
  lemma {:induction false} MissingGenerationDateReported(codigoBanco: int, params: Config)
    requires DataGeracao !in params
    ensures var ks := RequiredKeys(codigoBanco);
      FirstBadKey(params, ks) == 0 && KeyError(params, ks[0]) == Some(MissingKey(DataGeracao))
  {
  }

  /** A date setting holding something else is refused, even when every other setting is fine. */
  lemma {:induction false} NonDateGenerationDateRefused(codigoBanco: int, params: Config)
    requires DataGeracao in params && !params[DataGeracao].Date?
    ensures var ks := RequiredKeys(codigoBanco);
      FirstBadKey(params, ks) == 0 && KeyError(params, ks[0]) == Some(NotDateTime(DataGeracao))
  {
    assert IsDataKey(DataGeracao);
  }

  /** Storing one more setting extends the stored configuration by that setting. */
  lemma {:induction false} StoreKeysStep(cfg: Config, params: Config, ks: seq<Chave>, i: nat)
    requires i < |ks| && ks[i] in params
    ensures StoreKeys(cfg, params, ks[..i + 1]) == StoreKeys(cfg, params, ks[..i])[ks[i] := params[ks[i]]]
  {
    assert ks[..i + 1][..i] == ks[..i];
  }

  /** Every setting before the first failing one is present. */
  lemma {:induction false} KeyPresentBeforeFirstBad(params: Config, ks: seq<Chave>, j: nat)
    requires j < FirstBadKey(params, ks)
    ensures ks[j] in params
  {
    assert KeyError(params, ks[j]).None?;
  }

  /** A setting that fails its check, with none failing before it, is the first failing one. */
  lemma {:induction false} FailingKeyIsFirst(params: Config, ks: seq<Chave>, i: nat)
    requires i < |ks| && i <= FirstBadKey(params, ks) && KeyError(params, ks[i]).Some?
    ensures FirstBadKey(params, ks) == i
  {
  }

  /** The two date settings head every bank's list. */
  lemma RequiredKeysStartWithDates(codigoBanco: int)
    ensures |RequiredKeys(codigoBanco)| >= 2
    ensures RequiredKeys(codigoBanco)[0] == DataGeracao && RequiredKeys(codigoBanco)[1] == DataGravacao
  {
  }

  /** After a successful copy, both configured dates are stored, copied from params, and hold dates. */
  lemma {:induction false} ConfiguredDates(cfg: Config, params: Config, ks: seq<Chave>)
    requires |ks| >= 2 && ks[0] == DataGeracao && ks[1] == DataGravacao
    requires FirstBadKey(params, ks) == |ks|
    ensures DataGeracao in params && DataGravacao in params
    ensures params[DataGeracao].Date? && params[DataGravacao].Date?
    ensures DataGeracao in StoreKeys(cfg, params, ks) && DataGravacao in StoreKeys(cfg, params, ks)
    ensures StoreKeys(cfg, params, ks)[DataGeracao] == params[DataGeracao]
    ensures StoreKeys(cfg, params, ks)[DataGravacao] == params[DataGravacao]
  {
    assert ks[..|ks|] == ks;
    assert KeyError(params, ks[0]).None? && KeyError(params, ks[1]).None?;
    StoreKeysContents(cfg, params, ks);
    assert ks[0] in ks && ks[1] in ks;
  }

  // =====================================================================
  // configure: the header and trailer skeletons

  /** A setting's value; one never stored reads as null. */
  function Cfg(cfg: Config, k: Chave): (v: Value)
    ensures k in cfg ==> v == cfg[k]
    ensures k !in cfg ==> v == Null
  {
    if k in cfg then cfg[k] else Null
  }

  /** The bytes stripped from tax ids: ".-/". */
  const PONTUACAO: Bytes := [0x2E, 0x2D, 0x2F]

  /** prepareText applied to a stored value. */
  function PrepareValue(v: Value, remove: Option<Bytes>): (r: Value)
    ensures r.Text?
    ensures r == Text(PrepareText(AsText(v), remove))
    ensures forall i :: 0 <= i < |r.s| ==> !IsLowerAscii(r.s[i])
    ensures remove.Some? && IsTruthy(remove.value) ==>
              forall i :: 0 <= i < |r.s| ==> r.s[i] !in remove.value
  {
    Text(PrepareText(AsText(v), remove))
  }

  /**
   * The file header configure fills in, from the bank registry entry and the
   * stored settings: the company's tax id loses ".", "-" and "/"; Sicoob and
   * Bradesco add the account check digit, Sicoob the agency-and-account
   * check digit and Bradesco the agreement code.
   */
  function HeaderArquivoFor(codigoBanco: int, banco: BancoInfo<Value>, cfg: Config): HeaderArquivoRec
  {
    HeaderArquivoRec(
      codigoBanco := banco.codigoDoBanco,
      codigoInscricao := Cfg(cfg, TipoInscricao),
      numeroInscricao := PrepareValue(Cfg(cfg, CpfCnpj), Some(PONTUACAO)),
      agencia := Cfg(cfg, Agencia),
      agenciaDv := Cfg(cfg, AgenciaDv),
      codigoCedente := Cfg(cfg, CodigoCedente),
      codigoCedenteDv := if codigoBanco == SICOOB || codigoBanco == BRADESCO then Cfg(cfg, CodigoCedenteDv) else Null,
      agenciaMaisCedenteDv := if codigoBanco == SICOOB then Cfg(cfg, AgenciaMaisCedenteDv) else Null,
      codigoConvenio := if codigoBanco == BRADESCO then Cfg(cfg, CodigoConvenio) else Null,
      nomeEmpresa := Cfg(cfg, NomeFantasia),
      nomeBanco := banco.nomeDoBanco,
      codigoRemessaRetorno := Int(1),
      dataGeracao := Cfg(cfg, DataGeracao),
      horaGeracao := Cfg(cfg, DataGeracao),
      numeroSequencialArquivo := Cfg(cfg, NumeroSequencialArquivo))
  }

  /** The company's tax id in the file header carries no punctuation and no lower-case letter. */
  lemma HeaderInscricaoClean(codigoBanco: int, banco: BancoInfo<Value>, cfg: Config)
    ensures var h := HeaderArquivoFor(codigoBanco, banco, cfg);
      && h.numeroInscricao.Text?
      && forall i :: 0 <= i < |h.numeroInscricao.s| ==>
           h.numeroInscricao.s[i] !in PONTUACAO && !IsLowerAscii(h.numeroInscricao.s[i])
  {
    assert IsTruthy(PONTUACAO) by { assert PONTUACAO[0] == 0x2E; }
  }

  /**
   * The batch header configure fills in: batch 1 of remessa operations,
   * copied from the file header. The agreement code is the account for
   * most banks, empty for Sicoob and the configured one for Bradesco; CEF
   * starts as unregistered collection (service type 2).
   */
  function HeaderLoteFor(codigoBanco: int, ha: HeaderArquivoRec, cfg: Config): HeaderLoteRec
  {
    HeaderLoteRec(
      codigoBanco := ha.codigoBanco,
      loteServico := Int(1),
      tipoOperacao := TEXTO_R,
      tipoServico := if codigoBanco == CEF then Int(2) else Null,
      codigoInscricao := ha.codigoInscricao,
      numeroInscricao := ha.numeroInscricao,
      agencia := ha.agencia,
      agenciaDv := ha.agenciaDv,
      codigoConvenio :=
        if codigoBanco == SICOOB then VAZIO
        else if codigoBanco == BRADESCO then Cfg(cfg, CodigoConvenio)
        else ha.codigoCedente,
      codigoCedente := ha.codigoCedente,
      codigoCedenteDv := if codigoBanco == SICOOB || codigoBanco == BRADESCO then Cfg(cfg, CodigoCedenteDv) else Null,
      agenciaMaisCedenteDv :=
        if codigoBanco == SICOOB then Cfg(cfg, AgenciaMaisCedenteDv)
        else if codigoBanco == BRADESCO then VAZIO
        else Null,
      nomeEmpresa := ha.nomeEmpresa,
      numeroSequencialArquivo := ha.numeroSequencialArquivo,
      dataGeracao := ha.dataGeracao)
  }

  /**
   * After configure the batch header is batch 1 of remessa operations, for
   * the registry's bank code, with the file's company and agency; CEF starts
   * at service type 2 (no other bank sets it) and Sicoob's agreement code is
   * empty.
   */
  lemma BatchHeaderAfterConfigure(codigoBanco: int, banco: BancoInfo<Value>, cfg: Config)
    ensures var ha := HeaderArquivoFor(codigoBanco, banco, cfg);
      var hl := HeaderLoteFor(codigoBanco, ha, cfg);
      && hl.loteServico == Int(1) && hl.tipoOperacao == TEXTO_R
      && hl.codigoBanco == banco.codigoDoBanco
      && hl.codigoInscricao == Cfg(cfg, TipoInscricao) && hl.numeroInscricao == ha.numeroInscricao
      && hl.agencia == Cfg(cfg, Agencia) && hl.agenciaDv == Cfg(cfg, AgenciaDv)
      && (codigoBanco == CEF <==> hl.tipoServico == Int(2))
      && (codigoBanco != CEF ==> hl.tipoServico == Null)
      && (codigoBanco == SICOOB ==> hl.codigoConvenio == VAZIO)
  {
  }

  /** The batch trailer skeleton: the bank and the batch number, nothing else yet. */
  function TrailerLoteFor(ha: HeaderArquivoRec, hl: HeaderLoteRec): (t: TrailerLoteRec)
    ensures t.codigoBanco == ha.codigoBanco && t.loteServico == hl.loteServico
    ensures t.qtdeRegistroLote == Null && t.qtdeTituloCobrancaVinculada == Null
  {
    NOVO_TRAILER_LOTE.(codigoBanco := ha.codigoBanco, loteServico := hl.loteServico)
  }

  /** The file trailer skeleton: the bank only. */
  function TrailerArquivoFor(ha: HeaderArquivoRec): (t: TrailerArquivoRec)
    ensures t.codigoBanco == ha.codigoBanco
    ensures t.qtdeRegistros == Null && t.qtdeContasConciliacao == Null
  {
    NOVO_TRAILER_ARQUIVO.(codigoBanco := ha.codigoBanco)
  }

  // =====================================================================
  // insertDetalhe

  /**
   * One collection title as insertDetalhe reads it. Settings the source
   * tests with isset or ?? are optional; dates are already DateTime values;
   * the payer's name, address and ids are strings.
   */
  datatype Boleto = Boleto(
    dataVencimento: DateTime,
    dataCadastro: DateTime,
    modalidadeCarteira: Value,
    nossoNumero: Value,
    parcela: Value,
    registrado: bool,
    numeroDocumento: Value,
    valor: int,
    especie: Value,
    aceite: Value,
    codigoJurosMora: Value,
    jurosDeUmDia: Value,
    valorDesconto: int,
    dataDesconto: Value,
    prazo: Option<Value>,
    codigoOcorrencia: Value,
    sacadoCnpj: Option<Bytes>,
    sacadoCpf: Bytes,
    sacadoNome: Bytes,
    sacadoLogradouro: Bytes,
    sacadoBairro: Bytes,
    sacadoCep: Bytes,
    sacadoCidade: Bytes,
    sacadoUf: Value,
    terceiro: bool,
    dataLimite: Option<Value>,
    valorMulta: int,
    dataMulta: Value)

  /** The fixed tail of Sicoob's nosso número: "013" and five spaces. */
  const SICOOB_SUFIXO: Bytes := [0x30, 0x31, 0x33, 0x20, 0x20, 0x20, 0x20, 0x20]

  /** Sicoob's nosso número: the number zero-padded to 10, the instalment zero-padded to 2, then the fixed tail. */
  function SicoobNossoNumero(nossoNumero: Value, parcela: Value): (r: Bytes)
    ensures |r| >= 20 && r[|r| - 8..] == SICOOB_SUFIXO
    ensures |r| == |PadLeft(AsText(nossoNumero), 10, 0x30)| + |PadLeft(AsText(parcela), 2, 0x30)| + 8
    ensures r[..|PadLeft(AsText(nossoNumero), 10, 0x30)|] == PadLeft(AsText(nossoNumero), 10, 0x30)
    ensures r[|PadLeft(AsText(nossoNumero), 10, 0x30)|..|r| - 8] == PadLeft(AsText(parcela), 2, 0x30)
    ensures |AsText(nossoNumero)| <= 10 && |AsText(parcela)| <= 2 ==>
              |r| == 20
              && r[10 - |AsText(nossoNumero)|..10] == AsText(nossoNumero)
              && (forall i :: 0 <= i < 10 - |AsText(nossoNumero)| ==> r[i] == 0x30)
              && r[12 - |AsText(parcela)|..12] == AsText(parcela)
              && (forall i :: 10 <= i < 12 - |AsText(parcela)| ==> r[i] == 0x30)
  {
    var n := PadLeft(AsText(nossoNumero), 10, 0x30);
    var p := PadLeft(AsText(parcela), 2, 0x30);
    var r := n + p + SICOOB_SUFIXO;
    assert r[|r| - 8..] == SICOOB_SUFIXO;
    assert r[..|n|] == n && r[|n|..|r| - 8] == p;
    r
  }

  /**
   * Segment P of a title: the file's account, the bank's portfolio variants,
   * the title itself, its amounts and instructions. Where insertDetalhe
   * assigns a field twice (nosso número and forma de cadastramento for
   * Sicoob, the portfolio modality for CEF with layout "sigcb"), the field
   * holds the later value.
   */
  function SegmentoPFor(codigoBanco: int, layoutVersao: Option<string>, ha: HeaderArquivoRec, loteServico: Value,
                        cfg: Config, b: Boleto): SegmentoPRec
  {
    var desconto := b.valorDesconto > 0;
    SegmentoPRec(
      codigoBanco := ha.codigoBanco,
      loteServico := loteServico,
      numeroSequencialLote := Null,
      codigoOcorrencia := b.codigoOcorrencia,
      agencia := ha.agencia,
      agenciaDv := ha.agenciaDv,
      codigoCedente := ha.codigoCedente,
      codigoCedenteDv := if codigoBanco == SICOOB || codigoBanco == BRADESCO then Cfg(cfg, CodigoCedenteDv) else Null,
      agenciaMaisCedenteDv :=
        if codigoBanco == SICOOB || codigoBanco == BRADESCO then Cfg(cfg, AgenciaMaisCedenteDv) else Null,
      modalidadeCarteira :=
        if layoutVersao == Some("sigcb") && codigoBanco == CEF then TEXTO_14
        else if codigoBanco == BRADESCO then b.modalidadeCarteira
        else Null,
      nossoNumero := if codigoBanco == SICOOB then Text(SicoobNossoNumero(b.nossoNumero, b.parcela)) else b.nossoNumero,
      codigoCarteira := Int(1),
      formaCadastramento := if codigoBanco == SICOOB then Int(0) else if b.registrado then Int(1) else Int(2),
      numeroDocumento := b.numeroDocumento,
      vencimento := Date(b.dataVencimento),
      valorTitulo := Int(b.valor),
      especie := b.especie,
      aceite := b.aceite,
      dataEmissao := Date(b.dataCadastro),
      codigoJurosMora := b.codigoJurosMora,
      dataJurosMora := Date(b.dataVencimento),
      valorJurosMora := b.jurosDeUmDia,
      codigoDesconto1 := if desconto then Int(1) else Int(0),
      dataDesconto1 := if desconto then b.dataDesconto else Int(0),
      valorDesconto1 := if desconto then Int(b.valorDesconto) else Int(0),
      valorAbatimento := Int(0),
      usoEmpresa := b.numeroDocumento,
      codigoProtesto := Int(3),
      prazoProtesto := Int(0),
      codigoBaixa := Int(1),
      prazoBaixa := if b.prazo.Some? && !b.prazo.value.Null? then b.prazo.value else VAZIO)
  }

  /** The bytes stripped from a postal code: "-" and ".". */
  const CEP_PONTUACAO: Bytes := [0x2D, 0x2E]

  /**
   * Segment Q of a title: the payer, its texts passed through prepareText
   * (the tax id also loses ".", "-" and "/"), the postal code without "-"
   * and ".", and the drawer: the file's company for a third-party title.
   */
  function SegmentoQFor(ha: HeaderArquivoRec, loteServico: Value, p: SegmentoPRec, b: Boleto): SegmentoQRec
  {
    SegmentoQRec(
      codigoBanco := ha.codigoBanco,
      loteServico := loteServico,
      numeroSequencialLote := Null,
      codigoOcorrencia := p.codigoOcorrencia,
      sacadoCodigoInscricao := if b.sacadoCnpj.Some? then TEXTO_2 else TEXTO_1,
      sacadoNumeroInscricao :=
        Text(PrepareText(if b.sacadoCnpj.Some? then b.sacadoCnpj.value else b.sacadoCpf, Some(PONTUACAO))),
      nome := Text(PrepareText(b.sacadoNome, None)),
      logradouro := Text(PrepareText(b.sacadoLogradouro, None)),
      bairro := Text(PrepareText(b.sacadoBairro, None)),
      cep := Text(RemoveEach(b.sacadoCep, CEP_PONTUACAO)),
      cidade := Text(PrepareText(b.sacadoCidade, None)),
      estado := b.sacadoUf,
      sacadorCodigoInscricao := if b.terceiro then ha.codigoInscricao else TEXTO_0,
      sacadorNumeroInscricao := if b.terceiro then ha.numeroInscricao else TEXTO_0,
      sacadorNome := if b.terceiro then ha.nomeEmpresa else VAZIO)
  }

  /** Segment R of a title: the limit date when the title has one, and the fine when it is positive. */
  function SegmentoRFor(p: SegmentoPRec, b: Boleto): SegmentoRRec
  {
    var multa := b.valorMulta > 0;
    SegmentoRRec(
      codigoBanco := p.codigoBanco,
      loteServico := p.loteServico,
      numeroSequencialLote := Null,
      codigoOcorrencia := p.codigoOcorrencia,
      dataLimite := if b.dataLimite.Some? then b.dataLimite.value else Null,
      codigoMulta := if multa then Int(2) else Int(0),
      valorMulta := if multa then Int(b.valorMulta) else Int(0),
      dataMulta := if multa then b.dataMulta else Int(0))
  }

  /** The detail insertDetalhe appends for a title. */
  function DetalheFor(codigoBanco: int, layoutVersao: Option<string>, ha: HeaderArquivoRec, hl: HeaderLoteRec,
                      cfg: Config, b: Boleto): (d: Detalhe)
  {
    var p := SegmentoPFor(codigoBanco, layoutVersao, ha, hl.loteServico, cfg, b);
    Detalhe(p, SegmentoQFor(ha, hl.loteServico, p, b), SegmentoRFor(p, b))
  }

  /** The three segments of a detail belong to the same bank, batch 1 and occurrence. */
  predicate SameBatch(d: Detalhe, codigoBanco: Value) {
    && d.p.codigoBanco == codigoBanco && d.q.codigoBanco == codigoBanco && d.r.codigoBanco == codigoBanco
    && d.p.loteServico == Int(1) && d.q.loteServico == Int(1) && d.r.loteServico == Int(1)
    && d.q.codigoOcorrencia == d.p.codigoOcorrencia && d.r.codigoOcorrencia == d.p.codigoOcorrencia
  }

  /** A detail built under a configured batch header shares the file's bank, batch 1 and one occurrence code. */
  lemma DetalheForSameBatch(codigoBanco: int, layoutVersao: Option<string>, ha: HeaderArquivoRec, hl: HeaderLoteRec,
                            cfg: Config, b: Boleto)
    requires hl.loteServico == Int(1)
    ensures SameBatch(DetalheFor(codigoBanco, layoutVersao, ha, hl, cfg, b), ha.codigoBanco)
  {
  }

  /** The payer's tax id and postal code carry no punctuation, and the payer's texts no lower-case letter. */
  lemma PayerTextsCleaned(codigoBanco: int, layoutVersao: Option<string>, ha: HeaderArquivoRec, hl: HeaderLoteRec,
                          cfg: Config, b: Boleto)
    ensures var q := DetalheFor(codigoBanco, layoutVersao, ha, hl, cfg, b).q;
      && q.sacadoNumeroInscricao.Text?
      && (forall i :: 0 <= i < |q.sacadoNumeroInscricao.s| ==>
            q.sacadoNumeroInscricao.s[i] !in PONTUACAO && !IsLowerAscii(q.sacadoNumeroInscricao.s[i]))
      && q.nome.Text? && (forall i :: 0 <= i < |q.nome.s| ==> !IsLowerAscii(q.nome.s[i]))
      && (forall i :: 0 <= i < |q.cep.s| ==> q.cep.s[i] !in CEP_PONTUACAO)
  {
    RemoveEachIsWithout(b.sacadoCep, CEP_PONTUACAO);
    assert IsTruthy(PONTUACAO) by { assert PONTUACAO[0] == 0x2E; }
  }

  /**
   * Segment P's fixed instructions: registered titles are "1", others "2",
   * Sicoob always "0"; protest code 3 after 0 days, write-off code 1, no
   * abatement; Sicoob's nosso número ends in its fixed tail. The write-off
   * term is the title's "prazo", or "" when it is missing or null (PHP's ??),
   * so it is never null.
   */
  lemma SegmentoPRules(codigoBanco: int, layoutVersao: Option<string>, ha: HeaderArquivoRec, hl: HeaderLoteRec,
                       cfg: Config, b: Boleto)
    ensures var p := DetalheFor(codigoBanco, layoutVersao, ha, hl, cfg, b).p;
      && (codigoBanco == SICOOB ==> p.formaCadastramento == Int(0))
      && (codigoBanco != SICOOB ==> p.formaCadastramento == if b.registrado then Int(1) else Int(2))
      && p.codigoProtesto == Int(3) && p.prazoProtesto == Int(0)
      && p.codigoBaixa == Int(1) && p.valorAbatimento == Int(0)
      && (codigoBanco == SICOOB ==>
            p.nossoNumero.Text? && |p.nossoNumero.s| >= 20 && p.nossoNumero.s[|p.nossoNumero.s| - 8..] == SICOOB_SUFIXO)
      && (codigoBanco != SICOOB ==> p.nossoNumero == b.nossoNumero)
      && (b.prazo.Some? && !b.prazo.value.Null? ==> p.prazoBaixa == b.prazo.value)
      && (b.prazo.None? || b.prazo.value.Null? ==> p.prazoBaixa == VAZIO)
      && !p.prazoBaixa.Null?
  {
  }

  /**
   * The discount and the fine use 0 as "none": a positive amount sets code
   * 1 (discount) or 2 (fine) with the given date and amount, anything else
   * sets code, date and amount all to 0.
   */
  lemma DiscountAndFineSentinels(codigoBanco: int, layoutVersao: Option<string>, ha: HeaderArquivoRec, hl: HeaderLoteRec,
                                 cfg: Config, b: Boleto)
    ensures var d := DetalheFor(codigoBanco, layoutVersao, ha, hl, cfg, b);
      && (b.valorDesconto > 0 <==> d.p.codigoDesconto1 == Int(1))
      && (b.valorDesconto > 0 ==> d.p.dataDesconto1 == b.dataDesconto && d.p.valorDesconto1 == Int(b.valorDesconto))
      && (b.valorDesconto <= 0 ==>
            d.p.codigoDesconto1 == Int(0) && d.p.dataDesconto1 == Int(0) && d.p.valorDesconto1 == Int(0))
      && (b.valorMulta > 0 <==> d.r.codigoMulta == Int(2))
      && (b.valorMulta > 0 ==> d.r.valorMulta == Int(b.valorMulta) && d.r.dataMulta == b.dataMulta)
      && (b.valorMulta <= 0 ==> d.r.codigoMulta == Int(0) && d.r.valorMulta == Int(0) && d.r.dataMulta == Int(0))
  {
  }

  /**
   * Segment Q names the payer by CNPJ (code "2") when one is given and by
   * CPF (code "1") otherwise; the drawer is the file's company for a
   * third-party title and "0", "0", "" otherwise.
   */
  lemma PayerAndDrawer(codigoBanco: int, layoutVersao: Option<string>, ha: HeaderArquivoRec, hl: HeaderLoteRec,
                       cfg: Config, b: Boleto)
    ensures var q := DetalheFor(codigoBanco, layoutVersao, ha, hl, cfg, b).q;
      && (b.sacadoCnpj.Some? <==> q.sacadoCodigoInscricao == TEXTO_2)
      && (b.sacadoCnpj.None? <==> q.sacadoCodigoInscricao == TEXTO_1)
      && (b.sacadoCnpj.Some? ==> q.sacadoNumeroInscricao == Text(PrepareText(b.sacadoCnpj.value, Some(PONTUACAO))))
      && (b.sacadoCnpj.None? ==> q.sacadoNumeroInscricao == Text(PrepareText(b.sacadoCpf, Some(PONTUACAO))))
      && (b.terceiro ==>
            q.sacadorCodigoInscricao == ha.codigoInscricao && q.sacadorNumeroInscricao == ha.numeroInscricao
            && q.sacadorNome == ha.nomeEmpresa)
      && (!b.terceiro ==> q.sacadorCodigoInscricao == TEXTO_0 && q.sacadorNumeroInscricao == TEXTO_0 && q.sacadorNome == VAZIO)
  {
  }

  /** The batch header after inserting a title: CEF switches to registered collection for a registered title. */
  function HeaderLoteAfterInsert(codigoBanco: int, hl: HeaderLoteRec, b: Boleto): (h: HeaderLoteRec)
    ensures h.(tipoServico := hl.tipoServico) == hl
    ensures h.tipoServico == if b.registrado && codigoBanco == CEF then Int(1) else hl.tipoServico
  {
    if b.registrado && codigoBanco == CEF then hl.(tipoServico := Int(1)) else hl
  }

  /** The batch header after a series of inserts, in order. */
  function HeaderLoteAfterInserts(codigoBanco: int, hl: HeaderLoteRec, bs: seq<Boleto>): (h: HeaderLoteRec)
    decreases |bs|
  {
    if bs == [] then hl
    else HeaderLoteAfterInserts(codigoBanco, HeaderLoteAfterInsert(codigoBanco, hl, bs[0]), bs[1..])
  }

  predicate AnyRegistrado(bs: seq<Boleto>) {
    exists i :: 0 <= i < |bs| && bs[i].registrado
  }

  /**
   * For CEF, tipo_servico is 1 once any registered title was inserted and
   * never goes back; otherwise the inserts leave it as it was. The inserts
   * touch no other field of the batch header, and none at all for other banks.
   */
  lemma {:induction false} TipoServicoAfterInserts(codigoBanco: int, hl: HeaderLoteRec, bs: seq<Boleto>)
    ensures codigoBanco == CEF ==>
              HeaderLoteAfterInserts(codigoBanco, hl, bs) ==
                hl.(tipoServico := if AnyRegistrado(bs) then Int(1) else hl.tipoServico)
    ensures codigoBanco != CEF ==> HeaderLoteAfterInserts(codigoBanco, hl, bs) == hl
    decreases |bs|
  {
    if bs != [] {
      var hl1 := HeaderLoteAfterInsert(codigoBanco, hl, bs[0]);
      TipoServicoAfterInserts(codigoBanco, hl1, bs[1..]);
      if AnyRegistrado(bs[1..]) {
        var i :| 0 <= i < |bs[1..]| && bs[1..][i].registrado;
        assert bs[i + 1].registrado;
      }
      if AnyRegistrado(bs) && !bs[0].registrado {
        var i :| 0 <= i < |bs| && bs[i].registrado;
        assert bs[1..][i - 1].registrado;
      }
    }
  }

  /** A CEF batch header says 2 after configure and 1 once a registered title is inserted. */
  lemma {:induction false} CefTipoServico(ha: HeaderArquivoRec, cfg: Config, bs: seq<Boleto>)
    ensures HeaderLoteAfterInserts(CEF, HeaderLoteFor(CEF, ha, cfg), bs).tipoServico ==
              if AnyRegistrado(bs) then Int(1) else Int(2)
  {
    TipoServicoAfterInserts(CEF, HeaderLoteFor(CEF, ha, cfg), bs);
  }

  // =====================================================================
  // getText

  /** A record with its sequence number within the batch set to n (segments only carry one). */
  function NumberLinha(l: Linha, n: int): Linha {
    match l
    case SegmentoP(p) => SegmentoP(p.(numeroSequencialLote := Int(n)))
    case SegmentoQ(q) => SegmentoQ(q.(numeroSequencialLote := Int(n)))
    case SegmentoR(r) => SegmentoR(r.(numeroSequencialLote := Int(n)))
    case _ => l
  }

  /** The sequence number a record carries; null for records outside the batch's detail. */
  function SequenceNumber(l: Linha): Value {
    match l
    case SegmentoP(p) => p.numeroSequencialLote
    case SegmentoQ(q) => q.numeroSequencialLote
    case SegmentoR(r) => r.numeroSequencialLote
    case _ => Null
  }

  /** A detail whose segments P, Q, R carry the numbers first, first + 1, first + 2. */
  function NumberDetalhe(d: Detalhe, first: int): Detalhe {
    Detalhe(d.p.(numeroSequencialLote := Int(first)),
            d.q.(numeroSequencialLote := Int(first + 1)),
            d.r.(numeroSequencialLote := Int(first + 2)))
  }

  /** The details as getText leaves them numbered, the first segment being number 1. */
  function Numbered(ds: seq<Detalhe>): (ns: seq<Detalhe>)
    ensures |ns| == |ds|
    decreases |ds|
  {
    if ds == [] then [] else Numbered(ds[..|ds| - 1]) + [NumberDetalhe(ds[|ds| - 1], 1 + 3 * (|ds| - 1))]
  }

  /** The i-th detail is numbered from 1 + 3i: three numbers per detail before it. */
  lemma {:induction false} NumberedAt(ds: seq<Detalhe>, i: nat)
    requires i < |ds|
    ensures Numbered(ds)[i] == NumberDetalhe(ds[i], 1 + 3 * i)
    decreases |ds|
  {
    if i < |ds| - 1 {
      var init := ds[..|ds| - 1];
      NumberedAt(init, i);
    }
  }

  /** Numbering a prefix of the details numbers them as in the whole list. */
  lemma {:induction false} NumberedPrefix(ds: seq<Detalhe>, k: nat)
    requires k <= |ds|
    ensures Numbered(ds[..k]) == Numbered(ds)[..k]
    decreases |ds|
  {
    if k < |ds| {
      var init := ds[..|ds| - 1];
      assert ds[..k] == init[..k];
      NumberedPrefix(init, k);
    } else {
      assert ds[..k] == ds;
    }
  }

  /** The segment records of the details, in file order. */
  function SegmentLines(ds: seq<Detalhe>): (ls: seq<Linha>)
    ensures |ls| == 3 * |ds|
    decreases |ds|
  {
    if ds == [] then [] else SegmentLines(ds[..|ds| - 1]) + Segments(ds[|ds| - 1])
  }

  lemma NumberDetalheSegments(d: Detalhe, first: int)
    ensures forall m :: 0 <= m < 3 ==> Segments(NumberDetalhe(d, first))[m] == NumberLinha(Segments(d)[m], first + m)
  {
  }

  /**
   * Numbering changes nothing but the sequence number, and gives the i-th
   * segment in insertion order the number i + 1: the numbers run 1, 2, ...,
   * 3N without gap or repeat.
   */
  lemma {:induction false} NumberedSegmentsContiguous(ds: seq<Detalhe>)
    ensures forall i :: 0 <= i < 3 * |ds| ==>
              SegmentLines(Numbered(ds))[i] == NumberLinha(SegmentLines(ds)[i], i + 1)
              && SequenceNumber(SegmentLines(Numbered(ds))[i]) == Int(i + 1)
    decreases |ds|
  {
    if ds != [] {
      var n := |ds|;
      var init := ds[..n - 1];
      var ns := Numbered(ds);
      assert ns[..n - 1] == Numbered(init);
      NumberedSegmentsContiguous(init);
      NumberDetalheSegments(ds[n - 1], 1 + 3 * (n - 1));
      var lsN := SegmentLines(ns);
      var ls := SegmentLines(ds);
      assert lsN == SegmentLines(Numbered(init)) + Segments(ns[n - 1]);
      assert ls == SegmentLines(init) + Segments(ds[n - 1]);
      forall i | 0 <= i < 3 * n
        ensures lsN[i] == NumberLinha(ls[i], i + 1) && SequenceNumber(lsN[i]) == Int(i + 1)
      {
        if i >= 3 * (n - 1) {
          var m := i - 3 * (n - 1);
          assert lsN[i] == Segments(ns[n - 1])[m];
          assert ls[i] == Segments(ds[n - 1])[m];
        }
      }
    }
  }

  /** The position of the first detail at or after from that fails validation, |ns| when none does. */
  function FirstInvalidFrom(codec: Codec, ns: seq<Detalhe>, from: nat): (i: nat)
    requires from <= |ns|
    ensures from <= i <= |ns|
    ensures forall j :: from <= j < i ==> codec.validDetalhe(ns[j])
    ensures i < |ns| ==> !codec.validDetalhe(ns[i])
    decreases |ns| - from
  {
    if from == |ns| || !codec.validDetalhe(ns[from]) then from else FirstInvalidFrom(codec, ns, from + 1)
  }

  /** The position of the first detail that fails validation, |ns| when all pass. */
  function FirstInvalidDetalhe(codec: Codec, ns: seq<Detalhe>): (i: nat)
    ensures i <= |ns|
    ensures forall j :: 0 <= j < i ==> codec.validDetalhe(ns[j])
    ensures i < |ns| ==> !codec.validDetalhe(ns[i])
  {
    FirstInvalidFrom(codec, ns, 0)
  }

  /** Past a detail that passes, the first failure lies further on; at one that fails, it is that one. */
  lemma FirstInvalidAt(codec: Codec, ns: seq<Detalhe>, k: nat)
    requires k < |ns| && k <= FirstInvalidDetalhe(codec, ns)
    ensures codec.validDetalhe(ns[k]) ==> k + 1 <= FirstInvalidDetalhe(codec, ns)
    ensures !codec.validDetalhe(ns[k]) ==> FirstInvalidDetalhe(codec, ns) == k
  {
  }

  /** The sum of the titles' amounts (segment P's valor_titulo), in cents. */
  function SumValorTitulo(ds: seq<Detalhe>): int
    decreases |ds|
  {
    if ds == [] then 0 else SumValorTitulo(ds[..|ds| - 1]) + AsInt(ds[|ds| - 1].p.valorTitulo)
  }

  /** The encoded details, each followed by a line break. */
  function DetalhesText(codec: Codec, ns: seq<Detalhe>): Bytes
    decreases |ns|
  {
    if ns == [] then [] else DetalhesText(codec, ns[..|ns| - 1]) + codec.encodeDetalhe(ns[|ns| - 1]) + QUEBRA_LINHA
  }

  /**
   * The batch trailer getText completes for n titles of total amount soma:
   * the record count, the zeroed simple, pledged and discounted buckets and,
   * except for CEF, the linked bucket.
   */
  function FinalTrailerLote(codigoBanco: int, tl: TrailerLoteRec, n: nat, soma: int): (t: TrailerLoteRec)
    ensures t.qtdeRegistroLote == Int(2 + 3 * n)
    ensures t.qtdeTituloCobrancaSimples == Int(0) && t.valorTotalTituloSimples == Int(0)
    ensures t.qtdeTituloCobrancaCaucionada == Int(0) && t.valorTotalTituloCaucionada == Int(0)
    ensures t.qtdeTituloCobrancaDescontada == Int(0) && t.valorTotalTituloDescontada == Int(0)
    ensures codigoBanco != CEF ==>
              t.qtdeTituloCobrancaVinculada == Int(n) && t.valorTotalTituloVinculada == Int(soma)
    ensures codigoBanco == CEF ==>
              t.qtdeTituloCobrancaVinculada == tl.qtdeTituloCobrancaVinculada
              && t.valorTotalTituloVinculada == tl.valorTotalTituloVinculada
    ensures t.codigoBanco == tl.codigoBanco && t.loteServico == tl.loteServico
  {
    var t1 := tl.(qtdeRegistroLote := Int(2 + 3 * n),
                  qtdeTituloCobrancaSimples := Int(0),
                  valorTotalTituloSimples := Int(0));
    var t2 := if codigoBanco != CEF then
                t1.(qtdeTituloCobrancaVinculada := Int(n), valorTotalTituloVinculada := Int(soma))
              else t1;
    t2.(qtdeTituloCobrancaCaucionada := Int(0),
        valorTotalTituloCaucionada := Int(0),
        qtdeTituloCobrancaDescontada := Int(0),
        valorTotalTituloDescontada := Int(0))
  }

  /** The file trailer getText completes: one batch, the batch's records plus the two file records. */
  function FinalTrailerArquivo(codigoBanco: int, ta: TrailerArquivoRec, tl: TrailerLoteRec): (t: TrailerArquivoRec)
    ensures t.qtdeLotes == Int(1)
    ensures t.qtdeRegistros == Int(AsInt(tl.qtdeRegistroLote) + 2)
    ensures t.qtdeContasConciliacao == if codigoBanco == SICOOB then Int(1) else ta.qtdeContasConciliacao
    ensures t.codigoBanco == ta.codigoBanco
  {
    var t1 := ta.(qtdeLotes := Int(1), qtdeRegistros := Int(AsInt(tl.qtdeRegistroLote) + 2));
    if codigoBanco == SICOOB then t1.(qtdeContasConciliacao := Int(1)) else t1
  }

  /** Every record of the file, in the order they are written. */
  function FileRecords(ha: HeaderArquivoRec, hl: HeaderLoteRec, ns: seq<Detalhe>,
                       tl: TrailerLoteRec, ta: TrailerArquivoRec): (ls: seq<Linha>)
    ensures |ls| == 4 + 3 * |ns|
  {
    [HeaderArquivo(ha), HeaderLote(hl)] + SegmentLines(ns) + [TrailerLote(tl), TrailerArquivo(ta)]
  }

  /**
   * The trailers count the records the file holds: the batch counts every
   * record but the two file records, the file counts them all.
   */
  lemma {:induction false} TrailerCountsMatchRecords(codigoBanco: int, ha: HeaderArquivoRec, hl: HeaderLoteRec, ds: seq<Detalhe>,
                                  tl: TrailerLoteRec, ta: TrailerArquivoRec)
    ensures var tl2 := FinalTrailerLote(codigoBanco, tl, |ds|, SumValorTitulo(ds));
      var ta2 := FinalTrailerArquivo(codigoBanco, ta, tl2);
      var recs := FileRecords(ha, hl, Numbered(ds), tl2, ta2);
      && ta2.qtdeRegistros == Int(|recs|)
      && tl2.qtdeRegistroLote == Int(|recs| - 2)
      && ta2.qtdeLotes == Int(1)
  {
  }

  /** The text of a rendered file: every record encoded, each followed by a line break. */
  function RenderText(codec: Codec, ha: HeaderArquivoRec, hl: HeaderLoteRec, ns: seq<Detalhe>,
                      tl: TrailerLoteRec, ta: TrailerArquivoRec): Bytes {
    codec.encode(HeaderArquivo(ha)) + QUEBRA_LINHA
    + codec.encode(HeaderLote(hl)) + QUEBRA_LINHA
    + DetalhesText(codec, ns)
    + codec.encode(TrailerLote(tl)) + QUEBRA_LINHA
    + codec.encode(TrailerArquivo(ta)) + QUEBRA_LINHA
  }

  /** Whether both headers pass validation. */
  predicate HeadersValid(codec: Codec, ha: HeaderArquivoRec, hl: HeaderLoteRec) {
    codec.valid(HeaderArquivo(ha)) && codec.valid(HeaderLote(hl))
  }

  /** The outcome of getText on a configured file. */
  function GetTextResult(codec: Codec, codigoBanco: int, ha: HeaderArquivoRec, hl: HeaderLoteRec, ds: seq<Detalhe>,
                         tl: TrailerLoteRec, ta: TrailerArquivoRec): Result<Bytes, string>
  {
    if !codec.valid(HeaderArquivo(ha)) then Failure(codec.lastError(HeaderArquivo(ha)))
    // a batch header failure reports the file header's last error
    else if !codec.valid(HeaderLote(hl)) then Failure(codec.lastError(HeaderArquivo(ha)))
    else
      var ns := Numbered(ds);
      var i := FirstInvalidDetalhe(codec, ns);
      if i < |ns| then Failure(codec.detalheError(ns[i]))
      else
        var tl2 := FinalTrailerLote(codigoBanco, tl, |ds|, SumValorTitulo(ds));
        var ta2 := FinalTrailerArquivo(codigoBanco, ta, tl2);
        if !codec.valid(TrailerLote(tl2)) then Failure(codec.lastError(TrailerLote(tl2)))
        else if !codec.valid(TrailerArquivo(ta2)) then Failure(codec.lastError(TrailerArquivo(ta2)))
        else Success(RenderText(codec, ha, hl, ns, tl2, ta2))
  }

  /** The details after getText: numbered up to and including the first that failed validation. */
  function DetalhesAfterGetText(codec: Codec, ha: HeaderArquivoRec, hl: HeaderLoteRec, ds: seq<Detalhe>): seq<Detalhe> {
    if !HeadersValid(codec, ha, hl) then ds
    else
      var ns := Numbered(ds);
      var i := FirstInvalidDetalhe(codec, ns);
      if i < |ns| then ns[..i + 1] + ds[i + 1..] else ns
  }

  /** Whether getText gets as far as the trailers. */
  predicate ReachesTrailers(codec: Codec, ha: HeaderArquivoRec, hl: HeaderLoteRec, ds: seq<Detalhe>) {
    HeadersValid(codec, ha, hl) && FirstInvalidDetalhe(codec, Numbered(ds)) == |ds|
  }

  /**
   * getText yields a text exactly when every record of the file validates,
   * with the trailers as completed, and that text is the records' encodings
   * in file order; otherwise it yields no text.
   */
  lemma {:induction false} GetTextSucceedsIff(codec: Codec, codigoBanco: int, ha: HeaderArquivoRec, hl: HeaderLoteRec, ds: seq<Detalhe>,
                           tl: TrailerLoteRec, ta: TrailerArquivoRec)
    ensures var tl2 := FinalTrailerLote(codigoBanco, tl, |ds|, SumValorTitulo(ds));
      var ta2 := FinalTrailerArquivo(codigoBanco, ta, tl2);
      GetTextResult(codec, codigoBanco, ha, hl, ds, tl, ta).Success? <==>
        (&& codec.valid(HeaderArquivo(ha)) && codec.valid(HeaderLote(hl))
         && (forall j :: 0 <= j < |ds| ==> codec.validDetalhe(Numbered(ds)[j]))
         && codec.valid(TrailerLote(tl2)) && codec.valid(TrailerArquivo(ta2)))
    ensures var tl2 := FinalTrailerLote(codigoBanco, tl, |ds|, SumValorTitulo(ds));
      var ta2 := FinalTrailerArquivo(codigoBanco, ta, tl2);
      GetTextResult(codec, codigoBanco, ha, hl, ds, tl, ta).Success? ==>
        GetTextResult(codec, codigoBanco, ha, hl, ds, tl, ta).value == RenderText(codec, ha, hl, Numbered(ds), tl2, ta2)
  {
    var ns := Numbered(ds);
    var i := FirstInvalidDetalhe(codec, ns);
    if HeadersValid(codec, ha, hl) && i < |ns| {
      assert 0 <= i < |ds| && !codec.validDetalhe(Numbered(ds)[i]);
      assert !(forall j :: 0 <= j < |ds| ==> codec.validDetalhe(Numbered(ds)[j]));
    }
  }

  /** When the batch header alone fails, getText reports the file header's last error. */
  lemma {:induction false} BatchHeaderFailureReportsFileHeaderError(codec: Codec, codigoBanco: int, ha: HeaderArquivoRec,
                                                 hl: HeaderLoteRec, ds: seq<Detalhe>,
                                                 tl: TrailerLoteRec, ta: TrailerArquivoRec)
    requires codec.valid(HeaderArquivo(ha)) && !codec.valid(HeaderLote(hl))
    ensures GetTextResult(codec, codigoBanco, ha, hl, ds, tl, ta) == Failure(codec.lastError(HeaderArquivo(ha)))
  {
  }

  /** Rendering again renumbers from 1 and finds the numbers already in place. */
  lemma {:induction false} NumberingIdempotent(ds: seq<Detalhe>)
    ensures Numbered(Numbered(ds)) == Numbered(ds)
    decreases |ds|
  {
    if ds != [] {
      var ns := Numbered(ds);
      var init := ds[..|ds| - 1];
      assert ns[..|ns| - 1] == Numbered(init);
      NumberingIdempotent(init);
    }
  }

  lemma {:induction false} SumValorTituloStep(ds: seq<Detalhe>, k: nat)
    requires k < |ds|
    ensures SumValorTitulo(ds[..k + 1]) == SumValorTitulo(ds[..k]) + AsInt(ds[k].p.valorTitulo)
  {
    assert ds[..k + 1][..k] == ds[..k];
  }

  lemma {:induction false} DetalhesTextAppend(codec: Codec, ns: seq<Detalhe>, n: Detalhe)
    ensures DetalhesText(codec, ns + [n]) == DetalhesText(codec, ns) + codec.encodeDetalhe(n) + QUEBRA_LINHA
  {
    assert (ns + [n])[..|ns|] == ns;
  }

  /**
   * One turn of getText's loop over the details, on values: numbering the
   * k-th detail from 1 + 3k in place extends the numbered prefix by it.
   */
  lemma {:induction false} NumberingStep(ds: seq<Detalhe>, k: nat, lista: seq<Detalhe>)
    requires k < |ds| && lista == Numbered(ds)[..k] + ds[k..]
    ensures lista[k] == ds[k]
    ensures Numbered(ds)[k] == NumberDetalhe(ds[k], 1 + 3 * k)
    ensures lista[k := Numbered(ds)[k]] == Numbered(ds)[..k + 1] + ds[k + 1..]
    ensures Numbered(ds)[..k + 1] == Numbered(ds)[..k] + [Numbered(ds)[k]]
  {
    NumberedAt(ds, k);
    assert lista[k := Numbered(ds)[k]] == Numbered(ds)[..k + 1] + ds[k + 1..];
  }

  /**
   * The trailer part of getText: the batch trailer gets the record count and
   * the title totals (CEF keeps its linked-collection totals as they are),
   * the file trailer the batch and record counts.
   */
  method CompleteTrailers(codigoBanco: int, tl: TrailerLoteRec, ta: TrailerArquivoRec,
                          qtdeRegistroLote: int, qtdeTituloCobrancaSimples: int, valorTotalTituloSimples: int)
    returns (lote: TrailerLoteRec, arquivo: TrailerArquivoRec)
    requires qtdeTituloCobrancaSimples >= 0 && qtdeRegistroLote == 2 + 3 * qtdeTituloCobrancaSimples
    ensures lote == FinalTrailerLote(codigoBanco, tl, qtdeTituloCobrancaSimples, valorTotalTituloSimples)
    ensures arquivo == FinalTrailerArquivo(codigoBanco, ta, lote)
  {
    lote := tl.(qtdeRegistroLote := Int(qtdeRegistroLote));
    lote := lote.(qtdeTituloCobrancaSimples := Int(0), valorTotalTituloSimples := Int(0));
    if codigoBanco != CEF {
      lote := lote.(qtdeTituloCobrancaVinculada := Int(qtdeTituloCobrancaSimples),
                    valorTotalTituloVinculada := Int(valorTotalTituloSimples));
    }
    lote := lote.(qtdeTituloCobrancaCaucionada := Int(0), valorTotalTituloCaucionada := Int(0),
                  qtdeTituloCobrancaDescontada := Int(0), valorTotalTituloDescontada := Int(0));
    arquivo := ta.(qtdeLotes := Int(1));
    arquivo := arquivo.(qtdeRegistros := Int(AsInt(lote.qtdeRegistroLote) + 2));
    if codigoBanco == SICOOB {
      arquivo := arquivo.(qtdeContasConciliacao := Int(1));
    }
  }

  /**
   * The body of getText on the builder's state passed as values: validates
   * the headers, numbers and validates the details, completes and validates
   * the trailers, and returns the text with the details and trailers as
   * getText leaves them.
   */
  method BuildText(codec: Codec, codigoBanco: int, ha: HeaderArquivoRec, hl: HeaderLoteRec, ds: seq<Detalhe>,
                   tl: TrailerLoteRec, ta: TrailerArquivoRec)
    returns (r: Result<Bytes, string>, detalhes: seq<Detalhe>, trailerLote: TrailerLoteRec, trailerArquivo: TrailerArquivoRec)
    ensures r == GetTextResult(codec, codigoBanco, ha, hl, ds, tl, ta)
    ensures detalhes == DetalhesAfterGetText(codec, ha, hl, ds)
    ensures ReachesTrailers(codec, ha, hl, ds) ==>
              && trailerLote == FinalTrailerLote(codigoBanco, tl, |ds|, SumValorTitulo(ds))
              && trailerArquivo == FinalTrailerArquivo(codigoBanco, ta, trailerLote)
    ensures !ReachesTrailers(codec, ha, hl, ds) ==> trailerLote == tl && trailerArquivo == ta
  {
    detalhes, trailerLote, trailerArquivo := ds, tl, ta;
    if !codec.valid(HeaderArquivo(ha)) {
      return Failure(codec.lastError(HeaderArquivo(ha))), detalhes, trailerLote, trailerArquivo;
    }
    if !codec.valid(HeaderLote(hl)) {
      return Failure(codec.lastError(HeaderArquivo(ha))), detalhes, trailerLote, trailerArquivo;
    }

    var dados := codec.encode(HeaderArquivo(ha)) + QUEBRA_LINHA;
    dados := dados + codec.encode(HeaderLote(hl)) + QUEBRA_LINHA;

    var texto, qtdeRegistroLote, qtdeTituloCobrancaSimples, valorTotalTituloSimples, erro;
    detalhes, texto, qtdeRegistroLote, qtdeTituloCobrancaSimples, valorTotalTituloSimples, erro :=
      NumberDetalhes(codec, ds);
    if erro.Some? {
      return Failure(erro.value), detalhes, trailerLote, trailerArquivo;
    }
    dados := dados + texto;

    trailerLote, trailerArquivo := CompleteTrailers(codigoBanco, tl, ta, qtdeRegistroLote,
                                                    qtdeTituloCobrancaSimples, valorTotalTituloSimples);
    if !codec.valid(TrailerLote(trailerLote)) {
      return Failure(codec.lastError(TrailerLote(trailerLote))), detalhes, trailerLote, trailerArquivo;
    }
    if !codec.valid(TrailerArquivo(trailerArquivo)) {
      return Failure(codec.lastError(TrailerArquivo(trailerArquivo))), detalhes, trailerLote, trailerArquivo;
    }
    dados := dados + codec.encode(TrailerLote(trailerLote)) + QUEBRA_LINHA;
    dados := dados + codec.encode(TrailerArquivo(trailerArquivo)) + QUEBRA_LINHA;
    r := Success(dados);
  }

  // =====================================================================
  // the builder's invariant, on values

  /**
   * The headers and trailers name the registry's bank code and batch 1, the
   * batch is of remessa operations, and CEF's service type is 1 or 2.
   */
  predicate HeadersAgree(codigoBanco: int, codigoDoBanco: Value, ha: HeaderArquivoRec, hl: HeaderLoteRec,
                         tl: TrailerLoteRec, ta: TrailerArquivoRec)
  {
    && ha.codigoBanco == codigoDoBanco && hl.codigoBanco == codigoDoBanco
    && hl.loteServico == Int(1) && hl.tipoOperacao == TEXTO_R
    && (codigoBanco == CEF ==> hl.tipoServico == Int(1) || hl.tipoServico == Int(2))
    && tl.codigoBanco == codigoDoBanco && tl.loteServico == Int(1)
    && ta.codigoBanco == codigoDoBanco
  }

  /** Every detail's segments share the bank, batch 1 and one occurrence code. */
  predicate AllSameBatch(ds: seq<Detalhe>, codigoDoBanco: Value) {
    forall i :: 0 <= i < |ds| ==> SameBatch(ds[i], codigoDoBanco)
  }

  /** configure leaves headers and trailer skeletons that agree. */
  lemma ConfiguredHeadersAgree(codigoBanco: int, banco: BancoInfo<Value>, cfg: Config)
    ensures var ha := HeaderArquivoFor(codigoBanco, banco, cfg);
      var hl := HeaderLoteFor(codigoBanco, ha, cfg);
      HeadersAgree(codigoBanco, banco.codigoDoBanco, ha, hl, TrailerLoteFor(ha, hl), TrailerArquivoFor(ha))
  {
  }

  /** insertDetalhe keeps the headers in agreement: it only ever sets CEF's service type to 1. */
  lemma InsertKeepsHeadersAgree(codigoBanco: int, codigoDoBanco: Value, ha: HeaderArquivoRec, hl: HeaderLoteRec,
                                tl: TrailerLoteRec, ta: TrailerArquivoRec, b: Boleto)
    requires HeadersAgree(codigoBanco, codigoDoBanco, ha, hl, tl, ta)
    ensures HeadersAgree(codigoBanco, codigoDoBanco, ha, HeaderLoteAfterInsert(codigoBanco, hl, b), tl, ta)
  {
  }

  /** insertDetalhe keeps the builder's invariant: the new detail joins the batch and the headers still agree. */
  lemma InsertKeepsValid(codigoBanco: int, codigoDoBanco: Value, layoutVersao: Option<string>, ha: HeaderArquivoRec,
                         hl: HeaderLoteRec, cfg: Config, ds: seq<Detalhe>, tl: TrailerLoteRec, ta: TrailerArquivoRec,
                         b: Boleto)
    requires HeadersAgree(codigoBanco, codigoDoBanco, ha, hl, tl, ta) && AllSameBatch(ds, codigoDoBanco)
    ensures HeadersAgree(codigoBanco, codigoDoBanco, ha, HeaderLoteAfterInsert(codigoBanco, hl, b), tl, ta)
    ensures AllSameBatch(ds + [DetalheFor(codigoBanco, layoutVersao, ha, hl, cfg, b)], codigoDoBanco)
  {
    var detalhe := DetalheFor(codigoBanco, layoutVersao, ha, hl, cfg, b);
    DetalheForSameBatch(codigoBanco, layoutVersao, ha, hl, cfg, b);
    AppendKeepsSameBatch(ds, detalhe, codigoDoBanco);
    InsertKeepsHeadersAgree(codigoBanco, codigoDoBanco, ha, hl, tl, ta, b);
  }

  /** getText's trailer counts keep the headers in agreement. */
  lemma FinalTrailersKeepHeadersAgree(codigoBanco: int, codigoDoBanco: Value, ha: HeaderArquivoRec,
                                      hl: HeaderLoteRec, tl: TrailerLoteRec, ta: TrailerArquivoRec, n: nat, soma: int)
    requires HeadersAgree(codigoBanco, codigoDoBanco, ha, hl, tl, ta)
    ensures var tl2 := FinalTrailerLote(codigoBanco, tl, n, soma);
      HeadersAgree(codigoBanco, codigoDoBanco, ha, hl, tl2, FinalTrailerArquivo(codigoBanco, ta, tl2))
  {
  }

  /** Appending a detail of the same batch keeps every detail in the batch. */
  lemma {:induction false} AppendKeepsSameBatch(ds: seq<Detalhe>, d: Detalhe, codigoDoBanco: Value)
    requires AllSameBatch(ds, codigoDoBanco) && SameBatch(d, codigoDoBanco)
    ensures AllSameBatch(ds + [d], codigoDoBanco)
  {
    forall i | 0 <= i < |ds| + 1 ensures SameBatch((ds + [d])[i], codigoDoBanco) {
      if i < |ds| {
        assert (ds + [d])[i] == ds[i];
      }
    }
  }

  /** Numbering any prefix of the details keeps every detail in the batch. */
  lemma {:induction false} NumberingKeepsSameBatch(ds: seq<Detalhe>, k: nat, codigoDoBanco: Value)
    requires k <= |ds| && AllSameBatch(ds, codigoDoBanco)
    ensures AllSameBatch(Numbered(ds)[..k] + ds[k..], codigoDoBanco)
    ensures k == |ds| ==> AllSameBatch(Numbered(ds), codigoDoBanco)
  {
    var ns := Numbered(ds)[..k] + ds[k..];
    if k == |ds| {
      assert ns == Numbered(ds);
    }
    forall i | 0 <= i < |ns| ensures SameBatch(ns[i], codigoDoBanco) {
      if i < k {
        NumberedAt(ds, i);
        assert ns[i] == NumberDetalhe(ds[i], 1 + 3 * i);
      } else {
        assert ns[i] == ds[i];
      }
    }
  }

  // =====================================================================
  // the builder

  /**
   * The two loops of configure: copies the required settings one by one and
   * stops at the first that is absent, or is a date setting without a date;
   * then checks again that every required setting is present.
   */
  method CopySettings(cfg0: Config, params: Config, campos: seq<Chave>) returns (cfg: Config, erro: Option<ConfigError>)
    ensures cfg == StoreKeys(cfg0, params, campos[..FirstBadKey(params, campos)])
    ensures FirstBadKey(params, campos) < |campos| ==> erro == KeyError(params, campos[FirstBadKey(params, campos)])
    ensures FirstBadKey(params, campos) == |campos| ==> erro == None
  {
    cfg := cfg0;
    var i := 0;
    while i < |campos|
      invariant 0 <= i <= |campos|
      invariant i <= FirstBadKey(params, campos)
      invariant cfg == StoreKeys(cfg0, params, campos[..i])
    {
      var campo := campos[i];
      if campo in params {
        if IsDataKey(campo) && !params[campo].Date? {
          FailingKeyIsFirst(params, campos, i);
          return cfg, Some(NotDateTime(campo));
        }
        StoreKeysStep(cfg0, params, campos, i);
        cfg := cfg[campo := params[campo]];
      } else {
        FailingKeyIsFirst(params, campos, i);
        return cfg, Some(MissingKey(campo));
      }
      i := i + 1;
    }
    assert campos[..i] == campos;
    forall m | 0 <= m < |campos| ensures campos[m] in params {
      KeyPresentBeforeFirstBad(params, campos, m);
    }
    var j := 0;
    while j < |campos|
      invariant 0 <= j <= |campos|
      invariant forall k :: k in campos ==> k in params
    {
      if campos[j] !in params {
        assert false;
      }
      j := j + 1;
    }
    erro := None;
  }

  /**
   * The inner loop of getText: gives the segments of one detail the
   * consecutive numbers starting at first, and returns the next number.
   */
  method NumberSegments(detalhe: Detalhe, first: int) returns (numerado: Detalhe, proximo: int)
    ensures numerado == NumberDetalhe(detalhe, first)
    ensures proximo == first + 3
  {
    var segmentos := Segments(detalhe);
    proximo := first;
    var j := 0;
    while j < |segmentos|
      invariant 0 <= j <= 3 && |segmentos| == 3
      invariant proximo == first + j
      invariant forall m :: 0 <= m < j ==> segmentos[m] == NumberLinha(Segments(detalhe)[m], first + m)
      invariant forall m :: j <= m < 3 ==> segmentos[m] == Segments(detalhe)[m]
    {
      segmentos := segmentos[j := NumberLinha(segmentos[j], proximo)];
      proximo := proximo + 1;
      j := j + 1;
    }
    NumberDetalheSegments(detalhe, first);
    numerado := Detalhe(segmentos[0].p, segmentos[1].q, segmentos[2].r);
  }

  /**
   * The loop of getText over the details: numbers the segments of each
   * detail in turn, validates it and appends its encoding, counting the
   * titles, their amounts and the batch's records; the first detail that
   * fails ends it with that detail's message. Returns the details as left,
   * numbered up to and including the one that failed.
   */
  method NumberDetalhes(codec: Codec, ds: seq<Detalhe>)
    returns (lista: seq<Detalhe>, texto: Bytes, registros: int, titulos: int, soma: int, erro: Option<string>)
    ensures var i := FirstInvalidDetalhe(codec, Numbered(ds));
      && (i < |ds| ==> erro == Some(codec.detalheError(Numbered(ds)[i])) && lista == Numbered(ds)[..i + 1] + ds[i + 1..])
      && (i == |ds| ==> erro == None && lista == Numbered(ds) && texto == DetalhesText(codec, Numbered(ds)))
      && (i == |ds| ==> registros == 2 + 3 * |ds| && titulos == |ds| && soma == SumValorTitulo(ds))
  {
    var numeroSequencialLote := 1;
    registros, titulos, soma := 2, 0, 0;
    texto := [];
    ghost var ns := Numbered(ds);
    lista := ds;
    var k := 0;
    while k < |ds|
      invariant 0 <= k <= |ds|
      invariant k <= FirstInvalidDetalhe(codec, ns)
      invariant lista == ns[..k] + ds[k..]
      invariant numeroSequencialLote == 1 + 3 * k && registros == 2 + 3 * k && titulos == k
      invariant soma == SumValorTitulo(ds[..k])
      invariant texto == DetalhesText(codec, ns[..k])
    {
      NumberingStep(ds, k, lista);
      SumValorTituloStep(ds, k);
      titulos := titulos + 1;
      soma := soma + AsInt(lista[k].p.valorTitulo);
      var numerado;
      numerado, numeroSequencialLote := NumberSegments(lista[k], numeroSequencialLote);
      registros := registros + 3;
      assert numerado == ns[k];
      FirstInvalidAt(codec, ns, k);
      lista := lista[k := numerado];
      if !codec.validDetalhe(numerado) {
        return lista, texto, registros, titulos, soma, Some(codec.detalheError(numerado));
      }
      DetalhesTextAppend(codec, ns[..k], numerado);
      texto := texto + codec.encodeDetalhe(numerado) + QUEBRA_LINHA;
      k := k + 1;
    }
    assert ds[..k] == ds && ns[..k] == ns;
    assert lista == ns;
    erro := None;
  }

  class Arquivo {
    const codigoBanco: int
    const layoutVersao: Option<string>
    /** What the bank registry holds for codigoBanco. */
    const banco: BancoInfo<Value>

    var configuracao: Config
    var headerArquivo: HeaderArquivoRec
    var headerLote: HeaderLoteRec
    var detalhes: seq<Detalhe>
    var trailerLote: TrailerLoteRec
    var trailerArquivo: TrailerArquivoRec
    var dataGeracao: Value
    var dataGravacao: Value
    /** Whether configure has completed; before it the header objects do not exist. */
    var configured: bool

    /**
     * The builder's invariant: once configured, the headers and trailers name
     * the registry's bank code and batch 1, CEF's service type is 1 or 2, and
     * the two configured dates are dates; every detail's segments share the
     * bank, batch 1 and one occurrence code.
     */
    predicate Valid()
      reads this
    {
      && (configured ==>
            && HeadersAgree(codigoBanco, banco.codigoDoBanco, headerArquivo, headerLote, trailerLote, trailerArquivo)
            && dataGeracao.Date? && dataGravacao.Date?)
      && AllSameBatch(detalhes, banco.codigoDoBanco)
    }

    /** A builder for one bank; the registry's entry for it is given. */
    constructor (codigoBanco: int, layoutVersao: Option<string>, banco: BancoInfo<Value>)
      ensures this.codigoBanco == codigoBanco && this.layoutVersao == layoutVersao && this.banco == banco
      ensures detalhes == [] && configuracao == map[] && !configured
      ensures Valid()
    {
      this.codigoBanco := codigoBanco;
      this.layoutVersao := layoutVersao;
      this.banco := banco;
      configuracao := map[];
      headerArquivo := NOVO_HEADER_ARQUIVO;
      headerLote := NOVO_HEADER_LOTE;
      detalhes := [];
      trailerLote := NOVO_TRAILER_LOTE;
      trailerArquivo := NOVO_TRAILER_ARQUIVO;
      dataGeracao := Null;
      dataGravacao := Null;
      configured := false;
    }

    /**
     * configure: copies the required settings one by one, failing at the
     * first missing one or the first date setting without a date (the
     * settings before it stay stored); on success builds the headers and the
     * trailer skeletons.
     */
    method Configure(params: Config) returns (r: Outcome<ConfigError>)
      requires Valid()
      modifies this
      ensures Valid()
      ensures detalhes == old(detalhes)
      ensures var ks := RequiredKeys(codigoBanco);
        configuracao == StoreKeys(old(configuracao), params, ks[..FirstBadKey(params, ks)])
      ensures var ks := RequiredKeys(codigoBanco); var i := FirstBadKey(params, ks);
        i < |ks| ==>
          && r == Fail(KeyError(params, ks[i]).value)
          && unchanged(this`configured, this`headerArquivo, this`headerLote, this`trailerLote,
                       this`trailerArquivo, this`dataGeracao, this`dataGravacao)
      ensures var ks := RequiredKeys(codigoBanco);
        FirstBadKey(params, ks) == |ks| ==>
          && r == Pass && configured
          && DataGeracao in params && dataGeracao == params[DataGeracao]
          && DataGravacao in params && dataGravacao == params[DataGravacao]
          && headerArquivo == HeaderArquivoFor(codigoBanco, banco, configuracao)
          && headerLote == HeaderLoteFor(codigoBanco, headerArquivo, configuracao)
          && trailerLote == TrailerLoteFor(headerArquivo, headerLote)
          && trailerArquivo == TrailerArquivoFor(headerArquivo)
    {
      var campos := RequiredKeys(codigoBanco);
      var cfg, erro := CopySettings(configuracao, params, campos);
      configuracao := cfg;
      if erro.Some? {
        return Fail(erro.value);
      }
      RequiredKeysStartWithDates(codigoBanco);
      assert campos[..|campos|] == campos;
      ConfiguredDates(old(configuracao), params, campos);
      FillRecords();
      r := Pass;
    }

    /**
     * The second half of configure: the configured dates, the two headers
     * from the stored settings and the registry entry, and the trailer
     * skeletons.
     */
    method FillRecords()
      requires AllSameBatch(detalhes, banco.codigoDoBanco)
      requires DataGeracao in configuracao && configuracao[DataGeracao].Date?
      requires DataGravacao in configuracao && configuracao[DataGravacao].Date?
      modifies this
      ensures Valid() && configured
      ensures detalhes == old(detalhes) && configuracao == old(configuracao)
      ensures dataGeracao == configuracao[DataGeracao] && dataGravacao == configuracao[DataGravacao]
      ensures headerArquivo == HeaderArquivoFor(codigoBanco, banco, configuracao)
      ensures headerLote == HeaderLoteFor(codigoBanco, headerArquivo, configuracao)
      ensures trailerLote == TrailerLoteFor(headerArquivo, headerLote)
      ensures trailerArquivo == TrailerArquivoFor(headerArquivo)
    {
      ConfiguredHeadersAgree(codigoBanco, banco, configuracao);
      var ha := HeaderArquivoFor(codigoBanco, banco, configuracao);
      var hl := HeaderLoteFor(codigoBanco, ha, configuracao);
      dataGeracao := configuracao[DataGeracao];
      dataGravacao := configuracao[DataGravacao];
      headerArquivo := ha;
      headerLote := hl;
      trailerLote := TrailerLoteFor(ha, hl);
      trailerArquivo := TrailerArquivoFor(ha);
      configured := true;
    }

    /**
     * insertDetalhe: appends the detail of one title and, for CEF, marks the
     * batch as registered collection when the title is registered. Nothing
     * else changes.
     */
    method InsertDetalhe(b: Boleto)
      requires configured && Valid()
      modifies this
      ensures Valid()
      ensures detalhes == old(detalhes) + [DetalheFor(codigoBanco, layoutVersao, old(headerArquivo), old(headerLote), old(configuracao), b)]
      ensures headerLote == HeaderLoteAfterInsert(codigoBanco, old(headerLote), b)
      ensures configured && configuracao == old(configuracao) && headerArquivo == old(headerArquivo)
      ensures trailerLote == old(trailerLote) && trailerArquivo == old(trailerArquivo)
      ensures dataGeracao == old(dataGeracao) && dataGravacao == old(dataGravacao)
    {
      InsertKeepsValid(codigoBanco, banco.codigoDoBanco, layoutVersao, headerArquivo, headerLote, configuracao,
                       detalhes, trailerLote, trailerArquivo, b);
      var d := DetalheFor(codigoBanco, layoutVersao, headerArquivo, headerLote, configuracao, b);
      var hl := HeaderLoteAfterInsert(codigoBanco, headerLote, b);
      detalhes := detalhes + [d];
      headerLote := hl;
    }

    /** listDetalhes: the details in insertion order. */
    method ListDetalhes() returns (ds: seq<Detalhe>)
      requires Valid()
      ensures ds == detalhes
      ensures forall i :: 0 <= i < |ds| ==> SameBatch(ds[i], banco.codigoDoBanco)
    {
      ds := detalhes;
    }

    /** countDetalhes: how many titles were inserted. */
    method CountDetalhes() returns (n: nat)
      ensures n == |detalhes|
    {
      n := |detalhes|;
    }

    /**
     * getText: validates the headers, numbers the segments of each detail
     * and validates it, completes and validates the trailers, and returns the
     * text; the first record that fails ends it with that record's message.
     */
    method GetText(codec: Codec) returns (r: Result<Bytes, string>)
      requires configured && Valid()
      modifies this
      ensures Valid()
      ensures r == GetTextResult(codec, codigoBanco, old(headerArquivo), old(headerLote), old(detalhes),
                                 old(trailerLote), old(trailerArquivo))
      ensures detalhes == DetalhesAfterGetText(codec, old(headerArquivo), old(headerLote), old(detalhes))
      ensures ReachesTrailers(codec, old(headerArquivo), old(headerLote), old(detalhes)) ==>
                && trailerLote == FinalTrailerLote(codigoBanco, old(trailerLote), |old(detalhes)|, SumValorTitulo(old(detalhes)))
                && trailerArquivo == FinalTrailerArquivo(codigoBanco, old(trailerArquivo), trailerLote)
      ensures !ReachesTrailers(codec, old(headerArquivo), old(headerLote), old(detalhes)) ==>
                trailerLote == old(trailerLote) && trailerArquivo == old(trailerArquivo)
      ensures configured && configuracao == old(configuracao)
      ensures headerArquivo == old(headerArquivo) && headerLote == old(headerLote)
      ensures dataGeracao == old(dataGeracao) && dataGravacao == old(dataGravacao)
    {
      var lista, lote, arquivo;
      r, lista, lote, arquivo := BuildText(codec, codigoBanco, headerArquivo, headerLote, detalhes,
                                          trailerLote, trailerArquivo);
      ghost var k := if HeadersValid(codec, headerArquivo, headerLote)
                     then FirstInvalidDetalhe(codec, Numbered(detalhes)) else 0;
      NumberingKeepsSameBatch(detalhes, if k < |detalhes| then k + 1 else k, banco.codigoDoBanco);
      FinalTrailersKeepHeadersAgree(codigoBanco, banco.codigoDoBanco, headerArquivo, headerLote,
                                    trailerLote, trailerArquivo, |detalhes|, SumValorTitulo(detalhes));
      detalhes := lista;
      trailerLote := lote;
      trailerArquivo := arquivo;
    }
  }
}
