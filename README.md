# CNAB 240 remessa builder and retorno detail, in Dafny

This project models two parts of the `cnab_php` library, which reads and
writes FEBRABAN CNAB 240 collection files for Brazilian banks.

- **Retorno detail** (`src/Cnab/Retorno/Cnab240/Detalhe.php`): one title of a
  bank's return file, read as its Segment T and Segment U. It has pure getters
  that turn the raw fields into business values:
  - write-off and rejected write-off flags;
  - the document number, blanked when it is all zeros;
  - the bank-specific "nosso número": Banco do Brasil drops the covenant
    prefix, Santander drops the check digit;
  - `ddmmyyyy` dates;
  - the wallet, which CEF does not report;
  - the movement-code name;
  - the reason name, looked up in the per-movement tables with the shared
    rejection table as fall-through.
  The plain field getters (amounts, agencies, sequence number, payer name and
  document) are field reads. `RetornoDetalhe` declares them without a
  contract.
- **Remessa builder** (`src/Cnab/Remessa/Cnab240/Arquivo.php`): the class
  `Arquivo`.
  - `configure` copies the required settings, stopping at the first missing
    one or at a date setting that is not a date. It then builds the file
    header, the batch header and the two trailer skeletons.
  - `insertDetalhe` turns one title into Segments P, Q and R, with the CEF,
    Sicoob and Bradesco variants.
  - `getText` numbers the segments 1, 2, 3, …, validates every record, fills
    in the trailer counts and totals, and joins the encoded lines with
    `\r\n`.
  - `prepareText` is the text normaliser: trim, accent folding, upper-casing
    and character removal. It is modelled byte by byte in `TextNormalizer`,
    together with `isUtf8` and `utf8_encode`.

The files:
- `common.dfy`: the `Option`/`Result`/`Outcome` wrappers, the bank codes and
  the `DateTime` value.
- `text_normalizer.dfy`: trim, upper-casing, UTF-8 recognition, Latin-1 to
  UTF-8, the twelve accent patterns, byte removal and `prepareText`.
- `remessa_records.dfy`: the record kinds of a remessa file, as datatypes of
  the fields the builder assigns.
  - An unassigned field holds `Null`.
  - Amounts are integer cents.
  - `Codec` holds the record layer: `validate`, `last_error` and `getEncoded`.
- `remessa_arquivo.dfy`:
  - every step of the builder as a specification function;
  - lemmas about those functions;
  - the class `Arquivo`, whose methods update its fields. Each method is
    proved to leave exactly what those functions compute, and to keep the
    invariant `Valid()`.
- `retorno_detalhe.dfy`: the retorno detail and its getters.

## Model

| member | source | states |
|---|---|---|
| RetornoDetalhe.IsBaixaStatic | src/Cnab/Retorno/Cnab240/Detalhe.php:29-37 | true exactly for movement codes 6, 9, 17 and 25 |
| RetornoDetalhe.IsBaixaRejeitadaCodigo | src/Cnab/Retorno/Cnab240/Detalhe.php:43-51 | true exactly for movement codes 3, 26 and 30 |
| RetornoDetalhe.IsBaixa | src/Cnab/Retorno/Cnab240/Detalhe.php:23-27 | a detail is a write-off exactly when its Segment T movement code is a write-off code |
| RetornoDetalhe.Codigo | src/Cnab/Retorno/Cnab240/Detalhe.php:57-60 | getCodigo: Segment T's movement code, already an integer; no ensures of its own, stated through IsBaixa, CodigoNome and MotivoOcorrenciaNome |
| RetornoDetalhe.IsBaixaRejeitada | src/Cnab/Retorno/Cnab240/Detalhe.php:43-51 | a detail is a rejected write-off exactly when its movement code is 3, 26 or 30 |
| RetornoDetalhe.BaixaExcludesBaixaRejeitada | src/Cnab/Retorno/Cnab240/Detalhe.php:29-51 | no detail is both a write-off and a rejected write-off |
| RetornoDetalhe.FirstNonZero | src/Cnab/Retorno/Cnab240/Detalhe.php:150 | the index of the first non-'0' character at or after `from`; everything before it is '0' |
| RetornoDetalhe.LastNonZeroEnd | src/Cnab/Retorno/Cnab240/Detalhe.php:150 | the end of the last non-'0' character; everything after it is '0' |
| RetornoDetalhe.StripLeadingZeros | src/Cnab/Retorno/Cnab240/Detalhe.php:379 | `ltrim(s, '0')`: a suffix of s that starts with no '0', and only '0's were dropped |
| RetornoDetalhe.StripTrailingZeros | src/Cnab/Retorno/Cnab240/Detalhe.php:150 | `rtrim(s, '0')`: a prefix of s that ends with no '0', and only '0's were dropped |
| RetornoDetalhe.TrimZeros | src/Cnab/Retorno/Cnab240/Detalhe.php:150 | `trim(s, '0')`: never longer, and neither end is '0' |
| RetornoDetalhe.TrimZerosEmptyIff | src/Cnab/Retorno/Cnab240/Detalhe.php:150 | trimming zeros leaves nothing exactly when every character is '0' |
| RetornoDetalhe.NumeroDocumento | src/Cnab/Retorno/Cnab240/Detalhe.php:147-153 | the document number is absent (null) exactly when the field is all zeros (or empty); otherwise it is the field as read |
| RetornoDetalhe.NossoNumero | src/Cnab/Retorno/Cnab240/Detalhe.php:159-177 | Banco do Brasil: the covenant code is removed when it prefixes the number; Santander: the last character (check digit) is dropped; other banks: unchanged; always a substring of the raw number |
| RetornoDetalhe.RemovePrefix | src/Cnab/Retorno/Cnab240/Detalhe.php:163-169 | when the input starts with the prefix, the rest after it (prefix + rest is the input); otherwise the input unchanged |
| RetornoDetalhe.DropLast | src/Cnab/Retorno/Cnab240/Detalhe.php:171-174 | the input without its last character (empty stays empty) |
| RetornoDetalhe.NossoNumeroConvenioExample | src/Cnab/Retorno/Cnab240/Detalhe.php:163-169 | covenant "1234" and number "1234567890" give "567890" |
| RetornoDetalhe.DecodeDate | src/Cnab/Retorno/Cnab240/Detalhe.php:183-189 | no date for 0 (or a value outside eight digits); otherwise a midnight date whose day, month and year rebuild the `ddmmyyyy` number |
| RetornoDetalhe.DecodeDateRoundTrip | src/Cnab/Retorno/Cnab240/Detalhe.php:183-189 | encoding any day/month/year as `ddmmyyyy` and decoding gives the same date back |
| RetornoDetalhe.DecodeDateExamples | src/Cnab/Retorno/Cnab240/Detalhe.php:183-189 | 0 decodes to none; 25122024 decodes to 25 December 2024 |
| RetornoDetalhe.DataVencimento | src/Cnab/Retorno/Cnab240/Detalhe.php:183-189 | the due date is absent exactly when the field is 0 or outside eight digits; otherwise it is a midnight date, day and month below 100 and year below 10000, that spells the field |
| RetornoDetalhe.DataCredito | src/Cnab/Retorno/Cnab240/Detalhe.php:195-201 | the Segment U credit date is absent exactly when the field is 0 or outside eight digits; otherwise it is a midnight date, day and month below 100 and year below 10000, that spells the field |
| RetornoDetalhe.DataOcorrencia | src/Cnab/Retorno/Cnab240/Detalhe.php:215-221 | the Segment U occurrence date is absent exactly when the field is 0 or outside eight digits; otherwise it is a midnight date, day and month below 100 and year below 10000, that spells the field |
| RetornoDetalhe.Carteira | src/Cnab/Retorno/Cnab240/Detalhe.php:227-249 | CEF has no wallet; for other banks it is the field when the layout has one |
| RetornoDetalhe.CodigoNomeFor | src/Cnab/Retorno/Cnab240/Detalhe.php:300-366 | the table's name for the code; "Desconhecido" exactly when the code is not in the table |
| RetornoDetalhe.CodigoNomeTable | src/Cnab/Retorno/Cnab240/Detalhe.php:304-360 | the movement-code name table entry by entry; no ensures of its own, stated by CodigoNomeFor, ClassifiedCodesAreNamed and CodigoNomeExamples |
| RetornoDetalhe.CodigoNome | src/Cnab/Retorno/Cnab240/Detalhe.php:300-366 | the name of the detail's movement code; "Desconhecido" exactly when unlisted |
| RetornoDetalhe.ClassifiedCodesAreNamed | src/Cnab/Retorno/Cnab240/Detalhe.php:300-366 | every write-off and rejected write-off code has a name |
| RetornoDetalhe.CodigoNomeExamples | src/Cnab/Retorno/Cnab240/Detalhe.php:300-366 | 6 is "Liquidação"; 1, 10 and 999 are "Desconhecido" |
| RetornoDetalhe.MotivoOcorrenciaFor | src/Cnab/Retorno/Cnab240/Detalhe.php:378-380 | the reason code with its leading zeros, and only those, removed |
| RetornoDetalhe.MotivoOcorrencia | src/Cnab/Retorno/Cnab240/Detalhe.php:378-380 | the detail's reason code without leading zeros |
| RetornoDetalhe.MotivoOcorrenciaNomeFor | src/Cnab/Retorno/Cnab240/Detalhe.php:392-569 | no reason name exactly for movements other than 2, 3, 6, 9 and 26 |
| RetornoDetalhe.TableCodigo6 | src/Cnab/Retorno/Cnab240/Detalhe.php:397-415 | the settlement-channel names of movement 6; no ensures of its own, stated by MotivoOcorrenciaNomeLookup and MotivoSettlementExample |
| RetornoDetalhe.TableCodigo9 | src/Cnab/Retorno/Cnab240/Detalhe.php:417-425 | the write-off trigger names of movement 9; no ensures of its own, stated by MotivoOcorrenciaNomeLookup |
| RetornoDetalhe.TableCodigo2326 | src/Cnab/Retorno/Cnab240/Detalhe.php:427-550 | the shared rejection-reason names of movements 2, 3 and 26; no ensures of its own, stated by MotivoOcorrenciaNomeLookup and MotivoFallThroughExample |
| RetornoDetalhe.MotivoOcorrenciaNome | src/Cnab/Retorno/Cnab240/Detalhe.php:392-569 | absent exactly when the movement is not 2, 3, 6, 9 or 26; otherwise movement 6's or 9's own table entry for the zero-stripped reason, else the shared 2/3/26 table's entry, else "Desconhecido" |
| RetornoDetalhe.MotivoOcorrenciaNomeLookup | src/Cnab/Retorno/Cnab240/Detalhe.php:552-568 | movements 6 and 9 use their own table first; a reason missing there (and for 2, 3, 26) comes from the shared table; otherwise "Desconhecido" |
| RetornoDetalhe.Zeros | src/Cnab/Retorno/Cnab240/Detalhe.php:379 | n '0' characters |
| RetornoDetalhe.MotivoLeadingZerosIgnored | src/Cnab/Retorno/Cnab240/Detalhe.php:378-380 | leading zeros on the reason code never change its name |
| RetornoDetalhe.LeadingZerosStripped | src/Cnab/Retorno/Cnab240/Detalhe.php:378-380 | leading zeros never change the stripped reason code |
| RetornoDetalhe.FirstNonZeroIs | src/Cnab/Retorno/Cnab240/Detalhe.php:379 | an index preceded only by '0's and sitting on a non-'0' is the first non-zero |
| RetornoDetalhe.MotivoFallThroughExample | src/Cnab/Retorno/Cnab240/Detalhe.php:556-566 | movement 6 with reason "09" (not in table 6) takes the shared table's "Nosso número duplicado" |
| RetornoDetalhe.MotivoSettlementExample | src/Cnab/Retorno/Cnab240/Detalhe.php:397-415 | movement 6 with reason "061" is "Liquidado via PIX" |
| RetornoDetalhe.MotivoUnknownExamples | src/Cnab/Retorno/Cnab240/Detalhe.php:552-568 | an unlisted reason is "Desconhecido"; movement 17 has no reason name |
| TextNormalizer.TrimStart | src/Cnab/Remessa/Cnab240/Arquivo.php:283 | never longer; does not start with a trim byte |
| TextNormalizer.TrimStartDropsPrefix | src/Cnab/Remessa/Cnab240/Arquivo.php:283 | the result is a suffix of the input, and only trim bytes were dropped |
| TextNormalizer.TrimEnd | src/Cnab/Remessa/Cnab240/Arquivo.php:283 | never longer; does not end with a trim byte |
| TextNormalizer.TrimEndDropsSuffix | src/Cnab/Remessa/Cnab240/Arquivo.php:283 | the result is a prefix of the input, and only trim bytes were dropped |
| TextNormalizer.Trim | src/Cnab/Remessa/Cnab240/Arquivo.php:283 | never longer; neither end is a trim byte |
| TextNormalizer.TrimIsFactor | src/Cnab/Remessa/Cnab240/Arquivo.php:283 | trim's result is the factor of s that starts after the leading trim bytes; only trim bytes lie before and after it |
| TextNormalizer.ToUpper | src/Cnab/Remessa/Cnab240/Arquivo.php:283 | `strtoupper`: same length, each ASCII lower-case letter becomes its capital (byte minus 0x20), every other byte unchanged, so none is left |
| TextNormalizer.IsUtf8 | src/Cnab/Remessa/Cnab240/Arquivo.php:312-326 | the `isUtf8` regular expression, matched unit by unit; no ensures of its own, stated by IsUtf8Iff, Units and ConcatOfUnitsIsUtf8 |
| TextNormalizer.Units | src/Cnab/Remessa/Cnab240/Arquivo.php:312-326 | a string `isUtf8` accepts splits into well-formed units that concatenate back to it |
| TextNormalizer.UnitLengthOfWellFormed | src/Cnab/Remessa/Cnab240/Arquivo.php:314-323 | a well-formed unit's length is fixed by its lead byte |
| TextNormalizer.ConcatOfUnitsIsUtf8 | src/Cnab/Remessa/Cnab240/Arquivo.php:312-326 | any concatenation of well-formed units is accepted |
| TextNormalizer.IsUtf8Iff | src/Cnab/Remessa/Cnab240/Arquivo.php:312-326 | `isUtf8` accepts exactly the concatenations of the pattern's alternatives |
| TextNormalizer.Utf8Encode | src/Cnab/Remessa/Cnab240/Arquivo.php:308 | `utf8_encode`: between one and two bytes per input byte |
| TextNormalizer.Utf8EncodeRoundTrip | src/Cnab/Remessa/Cnab240/Arquivo.php:308 | decoding the UTF-8 of a Latin-1 string gives the string back |
| TextNormalizer.DecodeUnit | src/Cnab/Remessa/Cnab240/Arquivo.php:308 | decoding one encoded byte followed by a decodable tail decodes both |
| TextNormalizer.Utf8EncodeIsUtf8 | src/Cnab/Remessa/Cnab240/Arquivo.php:308 | the encoding of text without control bytes other than tab, LF and CR is accepted by `isUtf8` |
| TextNormalizer.ReplacePattern | src/Cnab/Remessa/Cnab240/Arquivo.php:291-307 | one `preg_replace` pattern never lengthens the text and never empties a non-empty one |
| TextNormalizer.ReplacePatternsFrom | src/Cnab/Remessa/Cnab240/Arquivo.php:291-307 | the remaining patterns applied in turn never lengthen the text |
| TextNormalizer.RemoveAccents | src/Cnab/Remessa/Cnab240/Arquivo.php:289-310 | on UTF-8 input the result is never longer |
| TextNormalizer.ClassFrom | src/Cnab/Remessa/Cnab240/Arquivo.php:293-305 | the first pattern at or after k whose byte class holds b, or none when no later class holds it |
| TextNormalizer.RemoveAccentsIsFold | src/Cnab/Remessa/Cnab240/Arquivo.php:289-310 | the twelve sequential replacements equal one left-to-right scan that folds each `\xC3` pair to its letter, after converting non-UTF-8 input |
| TextNormalizer.PatternsFromAreFold | src/Cnab/Remessa/Cnab240/Arquivo.php:291-309 | applying patterns k..11 in turn equals folding with classes k..11 |
| TextNormalizer.ReplaceThenFold | src/Cnab/Remessa/Cnab240/Arquivo.php:291-309 | applying pattern k and then folding with the later classes equals folding with classes k.. |
| TextNormalizer.RemoveAccentsLeavesNoAccent | src/Cnab/Remessa/Cnab240/Arquivo.php:289-310 | no `\xC3` pair from the twelve classes remains after removeAccents |
| TextNormalizer.FoldLeavesNoAccent | src/Cnab/Remessa/Cnab240/Arquivo.php:291-309 | the fold leaves no foldable pair |
| TextNormalizer.RemoveByte | src/Cnab/Remessa/Cnab240/Arquivo.php:285 | removing one byte never lengthens |
| TextNormalizer.RemoveEach | src/Cnab/Remessa/Cnab240/Arquivo.php:285 | `str_replace` of each byte of the set in turn never lengthens |
| TextNormalizer.Without | src/Cnab/Remessa/Cnab240/Arquivo.php:285 | no byte of the set remains |
| TextNormalizer.RemoveEachIsWithout | src/Cnab/Remessa/Cnab240/Arquivo.php:285 | removing the bytes one after another equals keeping the bytes outside the set, in order |
| TextNormalizer.WithoutKeepsUpper | src/Cnab/Remessa/Cnab240/Arquivo.php:283-285 | removal keeps upper-cased text upper-cased |
| TextNormalizer.PrepareText | src/Cnab/Remessa/Cnab240/Arquivo.php:281-287 | no lower-case ASCII letter; no byte of a truthy removal set; never longer than its input when the trimmed input is UTF-8; its full content is stated by PrepareTextContent |
| TextNormalizer.PrepareTextContent | src/Cnab/Remessa/Cnab240/Arquivo.php:281-287 | prepareText's output is the trimmed input (first UTF-8 encoded when it is not UTF-8), accent-folded by the one-scan `FoldAccents`, upper-cased, then filtered by `Without` through a truthy removal set |
| RemessaRecords.Segments | src/Cnab/Remessa/Cnab240/Arquivo.php:348 | a detail lists exactly three segments |
| RemessaRecords.Digits | src/Cnab/Remessa/Cnab240/Arquivo.php:177 | decimal digits only, with no leading zero for a positive number, that spell n when read most significant first |
| RemessaRecords.DecimalText | src/Cnab/Remessa/Cnab240/Arquivo.php:177 | PHP's int-to-string: for a non-negative number, digits that spell it; for a negative one, '-' followed by digits that spell its absolute value |
| RemessaRecords.AsText | src/Cnab/Remessa/Cnab240/Arquivo.php:177 | a string is itself; an integer is its decimal text; null is the empty string |
| RemessaRecords.AsInt | src/Cnab/Remessa/Cnab240/Arquivo.php:347 | an integer is itself; anything else counts as 0 |
| RemessaRecords.PadLeft | src/Cnab/Remessa/Cnab240/Arquivo.php:177 | `str_pad(..., STR_PAD_LEFT)`: the input right-aligned, padded with the pad byte up to the width |
| RemessaArquivo.RequiredKeys | src/Cnab/Remessa/Cnab240/Arquivo.php:31-65 | the settings a bank needs, in checking order; no ensures of its own, its lists are stated by RequiredKeysCover and RequiredKeysStartWithDates |
| RemessaArquivo.RequiredKeysCover | src/Cnab/Remessa/Cnab240/Arquivo.php:31-65 | every bank needs the twelve base settings; CEF, Bradesco and Sicoob also need the agency and cedente settings; CEF and Bradesco need the covenant, Sicoob does not |
| RemessaArquivo.RequiredKeysStartWithDates | src/Cnab/Remessa/Cnab240/Arquivo.php:31-33 | the first two settings checked are data_geracao and data_gravacao |
| RemessaArquivo.IsDataKeyIsNamePrefix | src/Cnab/Remessa/Cnab240/Arquivo.php:71 | a setting is checked for DateTime exactly when its name starts with "data_" |
| RemessaArquivo.IsDataKey | src/Cnab/Remessa/Cnab240/Arquivo.php:71 | the settings checked for DateTime; no ensures of its own, stated by IsDataKeyIsNamePrefix and KeyError |
| RemessaArquivo.KeyError | src/Cnab/Remessa/Cnab240/Arquivo.php:67-77 | no error exactly when the setting is present and, for a date setting, a DateTime; "need to be set" exactly when it is missing |
| RemessaArquivo.FirstBadKeyFrom | src/Cnab/Remessa/Cnab240/Arquivo.php:67-77 | the first failing setting at or after `from`; all before it pass |
| RemessaArquivo.FirstBadKey | src/Cnab/Remessa/Cnab240/Arquivo.php:67-77 | the first failing setting; all before it pass |
| RemessaArquivo.StoreKeys | src/Cnab/Remessa/Cnab240/Arquivo.php:67-77 | the settings after copying a list one by one; no ensures of its own, its contents are stated by StoreKeysContents and StoreKeysStep |
| RemessaArquivo.StoreKeysContents | src/Cnab/Remessa/Cnab240/Arquivo.php:67-77 | after copying, a setting is stored exactly when it was stored before or copied, and holds the copied value if copied |
| RemessaArquivo.StoreKeysStep | src/Cnab/Remessa/Cnab240/Arquivo.php:74 | copying one more setting adds it with the given value |
| RemessaArquivo.KeyPresentBeforeFirstBad | src/Cnab/Remessa/Cnab240/Arquivo.php:67-77 | every setting before the first failure was present |
| RemessaArquivo.FailingKeyIsFirst | src/Cnab/Remessa/Cnab240/Arquivo.php:67-77 | a failing setting not after the first failure is the first failure |
| RemessaArquivo.ConfigureSucceedsIff | src/Cnab/Remessa/Cnab240/Arquivo.php:67-77 | configure gets past the settings exactly when every required one is present and every date setting is a DateTime |
| RemessaArquivo.MissingGenerationDateReported | src/Cnab/Remessa/Cnab240/Arquivo.php:67-76 | without data_geracao configure fails at once, reporting data_geracao as missing |
| RemessaArquivo.NonDateGenerationDateRefused | src/Cnab/Remessa/Cnab240/Arquivo.php:69-72 | a data_geracao that is not a DateTime fails at once with the DateTime message |
| RemessaArquivo.ConfiguredDates | src/Cnab/Remessa/Cnab240/Arquivo.php:85-86 | after a successful copy both dates are stored and are DateTime values |
| RemessaArquivo.Cfg | src/Cnab/Remessa/Cnab240/Arquivo.php:93-115 | a stored setting reads as its stored value; an unset one reads as null |
| RemessaArquivo.PrepareValue | src/Cnab/Remessa/Cnab240/Arquivo.php:95 | a prepared setting is the text `PrepareText` makes of its string reading, so it has no lower-case letter and no byte of a truthy removal set |
| RemessaArquivo.HeaderArquivoFor | src/Cnab/Remessa/Cnab240/Arquivo.php:93-115 | the file header configure builds; no ensures of its own, its fields are stated by HeaderInscricaoClean, BatchHeaderAfterConfigure and ConfiguredHeadersAgree |
| RemessaArquivo.HeaderInscricaoClean | src/Cnab/Remessa/Cnab240/Arquivo.php:95 | the file header's tax id has no punctuation and no lower-case letter |
| RemessaArquivo.HeaderLoteFor | src/Cnab/Remessa/Cnab240/Arquivo.php:117-143 | the batch header configure builds; no ensures of its own, its fields are stated by BatchHeaderAfterConfigure and CefTipoServico |
| RemessaArquivo.BatchHeaderAfterConfigure | src/Cnab/Remessa/Cnab240/Arquivo.php:117-143 | the batch header is batch 1 of operation "R", copies the bank code, tax id and agency, has service type 2 exactly for CEF (null otherwise), and an empty covenant for Sicoob |
| RemessaArquivo.TrailerLoteFor | src/Cnab/Remessa/Cnab240/Arquivo.php:145-146 | the batch trailer skeleton carries the bank and batch, with counts unset |
| RemessaArquivo.TrailerArquivoFor | src/Cnab/Remessa/Cnab240/Arquivo.php:147-148 | the file trailer skeleton carries the bank, with counts unset |
| RemessaArquivo.ConfiguredHeadersAgree | src/Cnab/Remessa/Cnab240/Arquivo.php:88-148 | after configure, headers and trailers name the registry's bank code and batch 1 |
| RemessaArquivo.SicoobNossoNumero | src/Cnab/Remessa/Cnab240/Arquivo.php:176-178 | Sicoob's number is the number zero-padded to 10, then the instalment zero-padded to 2, then "013" and five spaces, at every width (longer inputs are kept whole, as `str_pad` never truncates); at least 20 bytes, exactly 20 for inputs within 10 and 2 bytes |
| RemessaArquivo.SegmentoPFor | src/Cnab/Remessa/Cnab240/Arquivo.php:158-221 | Segment P of a title; no ensures of its own, its fields are stated by SegmentoPRules, DiscountAndFineSentinels and DetalheForSameBatch |
| RemessaArquivo.SegmentoQFor | src/Cnab/Remessa/Cnab240/Arquivo.php:223-252 | Segment Q of a title; no ensures of its own, its fields are stated by PayerAndDrawer, PayerTextsCleaned and DetalheForSameBatch |
| RemessaArquivo.SegmentoRFor | src/Cnab/Remessa/Cnab240/Arquivo.php:254-271 | Segment R of a title; no ensures of its own, its fields are stated by DiscountAndFineSentinels and DetalheForSameBatch |
| RemessaArquivo.DetalheFor | src/Cnab/Remessa/Cnab240/Arquivo.php:151-274 | the detail insertDetalhe appends; no ensures of its own, stated by the lemmas above and by Arquivo.InsertDetalhe |
| RemessaArquivo.SegmentoPRules | src/Cnab/Remessa/Cnab240/Arquivo.php:176-219 | registration form 0 for Sicoob, else 1 when registered and 2 when not; protest 3 after 0 days, write-off code 1, no rebate; Sicoob's padded number, other banks' number as given; the write-off term is the title's `prazo`, or "" when it is missing or null |
| RemessaArquivo.DiscountAndFineSentinels | src/Cnab/Remessa/Cnab240/Arquivo.php:203-271 | discount code 1 exactly when there is a positive discount (then its date and value), all zeros otherwise; fine code 2 exactly when there is a positive fine (then its value and date), all zeros otherwise |
| RemessaArquivo.PayerAndDrawer | src/Cnab/Remessa/Cnab240/Arquivo.php:228-252 | payer type 2 exactly with a CNPJ and 1 exactly without; the id is the cleaned CNPJ or CPF; a third-party drawer is the company from the file header, otherwise "0", "0" and empty |
| RemessaArquivo.PayerTextsCleaned | src/Cnab/Remessa/Cnab240/Arquivo.php:228-240 | the payer id has no punctuation or lower case, the name has no lower case, the postcode has no '-' or '.' |
| RemessaArquivo.DetalheForSameBatch | src/Cnab/Remessa/Cnab240/Arquivo.php:158-257 | the three segments of a detail share the bank code, batch 1 and one occurrence code |
| RemessaArquivo.HeaderLoteAfterInsert | src/Cnab/Remessa/Cnab240/Arquivo.php:191-192 | inserting a title changes only the batch's service type, set to 1 for a registered CEF title |
| RemessaArquivo.HeaderLoteAfterInserts | src/Cnab/Remessa/Cnab240/Arquivo.php:191-192 | the batch header after a sequence of inserts; no ensures of its own, stated by TipoServicoAfterInserts and CefTipoServico |
| RemessaArquivo.AnyRegistrado | src/Cnab/Remessa/Cnab240/Arquivo.php:191 | some inserted title is registered; no ensures of its own, the condition of TipoServicoAfterInserts and CefTipoServico |
| RemessaArquivo.TipoServicoAfterInserts | src/Cnab/Remessa/Cnab240/Arquivo.php:191-192 | after any inserts, CEF's service type is 1 if any title was registered and unchanged otherwise; other banks' batch header is unchanged |
| RemessaArquivo.CefTipoServico | src/Cnab/Remessa/Cnab240/Arquivo.php:191-192 | CEF's batch service type is 1 when some inserted title is registered and 2 otherwise |
| RemessaArquivo.InsertKeepsHeadersAgree | src/Cnab/Remessa/Cnab240/Arquivo.php:191-192 | an insert keeps headers and trailers agreeing on bank and batch |
| RemessaArquivo.InsertKeepsValid | src/Cnab/Remessa/Cnab240/Arquivo.php:151-274 | an insert keeps the builder's invariant, including the new detail's segments sharing bank and batch |
| RemessaArquivo.NumberedAt | src/Cnab/Remessa/Cnab240/Arquivo.php:344-352 | the i-th detail's segments are numbered from 1 + 3i |
| RemessaArquivo.Numbered | src/Cnab/Remessa/Cnab240/Arquivo.php:344-352 | the details as getText numbers them; keeps the count, and the i-th detail is numbered from 1 + 3i as NumberedAt, NumberedPrefix and NumberedSegmentsContiguous state |
| RemessaArquivo.NumberDetalhe | src/Cnab/Remessa/Cnab240/Arquivo.php:348-352 | one detail's P, Q and R numbered first, first + 1, first + 2; no ensures of its own, stated by NumberDetalheSegments |
| RemessaArquivo.NumberLinha | src/Cnab/Remessa/Cnab240/Arquivo.php:350-351 | one segment given its sequence number; no ensures of its own, stated by NumberDetalheSegments and NumberedSegmentsContiguous |
| RemessaArquivo.SequenceNumber | src/Cnab/Remessa/Cnab240/Arquivo.php:350-351 | the sequence number a segment carries; no ensures of its own, read by NumberedSegmentsContiguous |
| RemessaArquivo.NumberedPrefix | src/Cnab/Remessa/Cnab240/Arquivo.php:344-352 | numbering a prefix equals the prefix of the numbering |
| RemessaArquivo.SegmentLines | src/Cnab/Remessa/Cnab240/Arquivo.php:344-352 | n details give 3n segment records |
| RemessaArquivo.NumberDetalheSegments | src/Cnab/Remessa/Cnab240/Arquivo.php:348-352 | P, Q and R of a detail get consecutive sequence numbers |
| RemessaArquivo.NumberedSegmentsContiguous | src/Cnab/Remessa/Cnab240/Arquivo.php:344-352 | across the file, the i-th segment record is numbered i + 1 |
| RemessaArquivo.NumberingIdempotent | src/Cnab/Remessa/Cnab240/Arquivo.php:344-352 | numbering twice equals numbering once |
| RemessaArquivo.NumberingKeepsSameBatch | src/Cnab/Remessa/Cnab240/Arquivo.php:344-352 | numbering any prefix keeps every detail within the batch |
| RemessaArquivo.FirstInvalidFrom | src/Cnab/Remessa/Cnab240/Arquivo.php:354-355 | the first detail at or after `from` that fails validation; all before it pass |
| RemessaArquivo.FirstInvalidDetalhe | src/Cnab/Remessa/Cnab240/Arquivo.php:354-355 | the first failing detail; all before it pass |
| RemessaArquivo.FirstInvalidAt | src/Cnab/Remessa/Cnab240/Arquivo.php:354-355 | a valid detail not after the first failure moves the first failure past it; an invalid one is the first failure |
| RemessaArquivo.FinalTrailerLote | src/Cnab/Remessa/Cnab240/Arquivo.php:360-375 | batch records 2 + 3n; simple, pledged and discounted buckets zero; the linked bucket holds n titles and their total except for CEF, which keeps it as it was |
| RemessaArquivo.FinalTrailerArquivo | src/Cnab/Remessa/Cnab240/Arquivo.php:377-382 | one batch; file records are the batch records plus 2; Sicoob reports one reconciliation account |
| RemessaArquivo.FinalTrailersKeepHeadersAgree | src/Cnab/Remessa/Cnab240/Arquivo.php:360-382 | completing the trailers keeps bank and batch agreement |
| RemessaArquivo.FileRecords | src/Cnab/Remessa/Cnab240/Arquivo.php:341-393 | the file has 4 + 3n records |
| RemessaArquivo.TrailerCountsMatchRecords | src/Cnab/Remessa/Cnab240/Arquivo.php:360-378 | the file trailer's count is the number of records in the file and the batch trailer's count is that minus 2 |
| RemessaArquivo.GetTextResult | src/Cnab/Remessa/Cnab240/Arquivo.php:328-394 | getText's result; no ensures of its own, stated by GetTextSucceedsIff and BatchHeaderFailureReportsFileHeaderError |
| RemessaArquivo.RenderText | src/Cnab/Remessa/Cnab240/Arquivo.php:341-392 | the CRLF-joined encoding of headers, details and trailers; no ensures of its own, stated by GetTextSucceedsIff |
| RemessaArquivo.DetalhesAfterGetText | src/Cnab/Remessa/Cnab240/Arquivo.php:344-389 | the details as getText leaves them, numbered as far as it got; no ensures of its own, stated by BuildText and Arquivo.GetText |
| RemessaArquivo.ReachesTrailers | src/Cnab/Remessa/Cnab240/Arquivo.php:344-389 | getText gets past every detail and completes the trailers; no ensures of its own, stated by BuildText and Arquivo.GetText |
| RemessaArquivo.GetTextSucceedsIff | src/Cnab/Remessa/Cnab240/Arquivo.php:328-394 | getText returns text exactly when both headers, every numbered detail and both completed trailers validate, and the text is then the encoded records joined by CRLF |
| RemessaArquivo.BatchHeaderFailureReportsFileHeaderError | src/Cnab/Remessa/Cnab240/Arquivo.php:338-339 | a failing batch header raises the file header's `last_error`, not the batch header's |
| RemessaArquivo.SumValorTituloStep | src/Cnab/Remessa/Cnab240/Arquivo.php:347 | the running total grows by each title's value |
| RemessaArquivo.SumValorTitulo | src/Cnab/Remessa/Cnab240/Arquivo.php:347 | the total of the titles' values; no ensures of its own, stated by SumValorTituloStep and FinalTrailerLote |
| RemessaArquivo.DetalhesText | src/Cnab/Remessa/Cnab240/Arquivo.php:358 | the details' encodings each followed by CRLF; no ensures of its own, stated by DetalhesTextAppend |
| RemessaArquivo.DetalhesTextAppend | src/Cnab/Remessa/Cnab240/Arquivo.php:358 | appending a detail appends its encoding and CRLF |
| RemessaArquivo.NumberingStep | src/Cnab/Remessa/Cnab240/Arquivo.php:344-352 | numbering the k-th detail extends the numbered prefix by one |
| RemessaArquivo.AppendKeepsSameBatch | src/Cnab/Remessa/Cnab240/Arquivo.php:273 | appending a same-batch detail keeps all details in the batch |
| RemessaArquivo.CopySettings | src/Cnab/Remessa/Cnab240/Arquivo.php:67-77 | copies the settings before the first failure and reports that failure's message, or none |
| RemessaArquivo.NumberSegments | src/Cnab/Remessa/Cnab240/Arquivo.php:348-352 | numbers P, Q and R from `first` and returns `first + 3` |
| RemessaArquivo.NumberDetalhes | src/Cnab/Remessa/Cnab240/Arquivo.php:344-359 | the loop numbers and encodes the details, stops at the first invalid one with its message (details numbered up to it), and otherwise returns the record count 2 + 3n, n titles, their total and the joined text |
| RemessaArquivo.CompleteTrailers | src/Cnab/Remessa/Cnab240/Arquivo.php:360-382 | fills in the two trailers as FinalTrailerLote and FinalTrailerArquivo state |
| RemessaArquivo.BuildText | src/Cnab/Remessa/Cnab240/Arquivo.php:328-394 | computes getText's result, the details as it leaves them and the completed trailers when it reaches them |
| RemessaArquivo.Arquivo.constructor | src/Cnab/Remessa/Cnab240/Arquivo.php:20-26 | a new builder for a bank: no details, no settings, not yet configured |
| RemessaArquivo.Arquivo.Configure | src/Cnab/Remessa/Cnab240/Arquivo.php:28-149 | stores the settings before the first failure; fails with that setting's message and leaves the records alone, or succeeds and builds headers and trailer skeletons from the settings; the invariant is kept |
| RemessaArquivo.Arquivo.FillRecords | src/Cnab/Remessa/Cnab240/Arquivo.php:85-148 | sets the two dates, the two headers and the trailer skeletons from the settings and marks the builder configured |
| RemessaArquivo.Arquivo.InsertDetalhe | src/Cnab/Remessa/Cnab240/Arquivo.php:151-274 | appends the title's detail, updates only CEF's service type and changes nothing else |
| RemessaArquivo.Arquivo.ListDetalhes | src/Cnab/Remessa/Cnab240/Arquivo.php:276-279 | the details in insertion order, all within the batch |
| RemessaArquivo.Arquivo.CountDetalhes | src/Cnab/Remessa/Cnab240/Arquivo.php:396-399 | the number of inserted details |
| RemessaArquivo.Arquivo.GetText | src/Cnab/Remessa/Cnab240/Arquivo.php:328-394 | returns GetTextResult, leaves the details numbered as far as it got, completes the trailers when it reaches them, and keeps the invariant |

## Left out

- `html_entity_decode` in `prepareText` is taken as the identity. Entity decoding is not modelled.
- DateTime parsing: the retorno dates are decoded to day, month and year numbers. PHP's `createFromFormat` rolls out-of-range days and months over into the next month or year, and that normalisation is not modelled.
- Floating point: amounts are integer cents, on both the retorno and the remessa side.
- NossoNumero: the Banco do Brasil covenant is removed only as a literal prefix. The source uses it as a regular expression, so a covenant holding regex metacharacters may behave differently there.
- `save` writes the text to a file. File I/O is not modelled.
- The record layer (`\Cnab\Format\Linha`: `validate`, `last_error`, `getEncoded`) is not part of this model. It enters as a `Codec` of function values, so the 240-column width, padding and field formats live there.
- The bank registry (`\Cnab\Banco::getBanco`) is not part of this model. Its entry for the builder's bank is a constructor parameter.
- Segment W of the retorno detail is not modelled, and neither is `dump`.
- `getCodigoLiquidacao`, `getDescricaoLiquidacao`, `isDDA` and `getAlegacaoPagador` are stubs that return a constant, so they are not modelled.
- The remessa `Detalhe` class (`src/Cnab/Remessa/Cnab240/Detalhe.php`) is not part of this model. A detail is its Segments P, Q and R in that order, which is what its `listSegmento` returns.
- Arquivo.InsertDetalhe requires a configured builder, which enforces the configure-first protocol. Before `configure`, the source reads the missing headers as null, so it appends a detail whose bank and batch fields are null. Only a registered CEF title fails there, on the assignment at Arquivo.php line 192. Inserting before configure is not modelled.
- Arquivo.GetText requires a configured builder. Before `configure`, the source calls `validate()` on a null header and fails, and that failure is not modelled.
- insertDetalhe's `data_vencimento` and `data_cadastro` are `DateTime` values in `Boleto`. The source also accepts a date string and converts it with `new \DateTime(...)` (Arquivo.php lines 153-154), which throws on an unparseable string. Neither the parsing nor that exception is modelled.
- RemessaRecords.AsText maps a DateTime value to the empty string. In PHP, passing a DateTime object to `prepareText` or `str_pad` raises a TypeError, and that error is not modelled.
- Boleto keys that the source reads without `isset` are always present in the `Boleto` value, so the "undefined index" notice path is not modelled.
- Segments are values: the source's segment objects are shared and numbered in place, and the aliasing between the `detalhes` list and those objects is not modelled.
- The configuration array is a map over the setting names `configure` reads. Other keys are never looked at.
- Fields the source assigns twice hold the later value. The earlier assignment is not kept.
- The second loop of `configure` (Arquivo.php lines 79-83) is kept as the second loop of `CopySettings`. Its only branch is proved unreachable, because every key it checks was just stored, so its exception is never raised.
- The retorno numeric fields (movement code, dates, amounts) are taken as already-decoded integers, so the `(int)` casts of Detalhe.php lines 32, 46, 59, 302 and 394 are the identity. PHP truthiness on a text date is not modelled either: a date field delivered as the string "00000000" would be truthy in PHP and reach `createFromFormat`, while the model reads it as 0 and gives no date.
- The reason-name lookup follows the code: movements 6 and 9 fall through to the shared 2/3/26 table.
