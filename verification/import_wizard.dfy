/**
 * The import wizard: a bank statement (a PDF read by an AI model) or a backup file (JSON) becomes a
 * draft, the draft is labelled with a bank (guessed from the file name, then chosen by the user),
 * and the draft is handed to the application to be merged or to replace its data. The file
 * readers and the AI request are the environment: their outcomes are parameters.
 */
module ImportWizard {
  import opened Wrappers
  import opened Text
  import opened Domain
  import opened App
  import opened AiService

  datatype Mode = Select | Pdf | Json | Processing | Review | BankSelect | Confirm | Success | Error

  /** A chosen file: its name and its MIME type. */
  datatype File = File(name: string, kind: string)

  /** The bank attached to a draft: a guessed bank carries a style class, a chosen one a colour. */
  datatype BankTag = BankTag(name: string, colorClass: Option<string>, color: Option<string>)

  /** The data waiting for the user's confirmation (`parsedData`). */
  datatype Draft = Draft(data: Backup, detectedBank: Option<BankTag>)

  /** What reading a backup file gave: its content, or the reader's error message. */
  datatype JsonRead = ReadFailed(message: string) | Read(doc: Backup)

  /** What the AI request gave: the parsed reply (`None` for a `null` reply), or an error message. */
  datatype AiReply = AiFailed(message: string) | AiReturned(parsed: Option<Backup>)

  /** What processing a statement gave: the text extraction failed, or the text and the reply. */
  datatype PdfOutcome = ExtractFailed(message: string) | Extracted(text: string, reply: AiReply)

  // ---------------------------------------------------------------------------------------------
  // Banks

  datatype BankRule = BankRule(keywords: seq<string>, name: string, colorClass: string)

  /** The banks the file name is searched for, in the order they are tried. */
  const Rules: seq<BankRule> := [
    BankRule(["akbank", "ak bank"], "Akbank", "bank-akbank"),
    BankRule(["ziraat", "tc ziraat"], "Ziraat Bankası", "bank-ziraat"),
    BankRule(["garanti", "bbva"], "Garanti BBVA", "bank-garanti"),
    BankRule(["yapı kredi", "yapikredi", "ykb"], "Yapı Kredi", "bank-yapikredi"),
    BankRule(["isbank", "iş bankası", "is bankasi"], "İş Bankası", "bank-isbank"),
    BankRule(["halkbank", "halk bank"], "Halkbank", "bank-halkbank"),
    BankRule(["vakifbank", "vakıfbank"], "VakıfBank", "bank-vakifbank"),
    BankRule(["denizbank", "deniz bank"], "DenizBank", "bank-denizbank"),
    BankRule(["qnb", "finansbank", "finans bank"], "QNB Finansbank", "bank-qnb"),
    BankRule(["enpara", "en para"], "Enpara", "bank-enpara"),
    BankRule(["papara"], "Papara", "bank-papara"),
    BankRule(["tosla"], "Tosla", "bank-tosla")
  ]

  const UnknownBank: BankTag := BankTag("Bilinmeyen Banka", Some("bank-default"), None)

  /** The banks offered for selection, with their colours (`BANKS`). */
  const Banks: seq<(string, string)> := [
    ("Akbank", "#e30a17"),
    ("Ziraat Bankası", "#1a7f37"),
    ("Garanti BBVA", "#009640"),
    ("Yapı Kredi", "#004c99"),
    ("İş Bankası", "#0055a4"),
    ("Halkbank", "#00529b"),
    ("VakıfBank", "#ffc72c"),
    ("DenizBank", "#0066b3"),
    ("QNB Finansbank", "#772583"),
    ("Enpara", "#ff6b00"),
    ("Papara", "#6c5ce7"),
    ("Tosla", "#00c9a7"),
    ("Diğer", "#6b7280")
  ]

  const DefaultBankColor: string := "#6b7280"
  const CreditCard: string := "Kredi Kartı"

  predicate Matches(rule: BankRule, lowerName: string) {
    exists k :: 0 <= k < |rule.keywords| && Contains(lowerName, rule.keywords[k])
  }

  /** The first rule one of whose keywords occurs in the (lower-cased) name. */
  function FirstMatch(rules: seq<BankRule>, lowerName: string): (r: Option<nat>)
    ensures r.Some? ==> r.value < |rules| && Matches(rules[r.value], lowerName)
                        && forall j :: 0 <= j < r.value ==> !Matches(rules[j], lowerName)
    ensures r.None? ==> forall j :: 0 <= j < |rules| ==> !Matches(rules[j], lowerName)
  {
    if |rules| == 0 then None
    else if Matches(rules[0], lowerName) then Some(0)
    else
      match FirstMatch(rules[1..], lowerName)
      case None => None
      case Some(i) => Some(i + 1)
  }

  /** `detectBankFromFilename(filename)`: the first bank a keyword of which occurs in the lower-cased
    * name, or the unknown bank. */
  function DetectBank(filename: string): (tag: BankTag)
    ensures tag.color.None? && tag.colorClass.Some?
    ensures FirstMatch(Rules, ToLower(filename)).None? ==> tag == UnknownBank
    ensures FirstMatch(Rules, ToLower(filename)).Some? ==>
              var i := FirstMatch(Rules, ToLower(filename)).value;
              tag.name == Rules[i].name && tag.colorClass == Some(Rules[i].colorClass)
  {
    match FirstMatch(Rules, ToLower(filename))
    case Some(i) => BankTag(Rules[i].name, Some(Rules[i].colorClass), None)
    case None => UnknownBank
  }

  /** No keyword of the rule holds a character that lower-casing changes. */
  predicate LowerKeywords(rule: BankRule) {
    forall k, c :: 0 <= k < |rule.keywords| && 0 <= c < |rule.keywords[k]| ==>
      LowerChar(rule.keywords[k][c]) == [rule.keywords[k][c]]
  }

  // The statement "every keyword of every rule is lower case" is split into RulesLower0 to
  // RulesLower10 by ranges of two rules only to keep each proof small for the solver; together
  // they cover all of `Rules`, which `KeywordsAreLowerCase` uses.

  lemma RulesLower0()
    ensures forall i :: 0 <= i < 2 ==> LowerKeywords(Rules[i])
  {
  }

  lemma RulesLower2()
    ensures forall i :: 2 <= i < 4 ==> LowerKeywords(Rules[i])
  {
  }

  lemma RulesLower4()
    ensures forall i :: 4 <= i < 6 ==> LowerKeywords(Rules[i])
  {
  }

  lemma RulesLower6()
    ensures forall i :: 6 <= i < 8 ==> LowerKeywords(Rules[i])
  {
  }

  lemma RulesLower8()
    ensures forall i :: 8 <= i < 10 ==> LowerKeywords(Rules[i])
  {
  }

  lemma RulesLower10()
    ensures forall i :: 10 <= i < |Rules| ==> LowerKeywords(Rules[i])
  {
  }

  /** The keywords are written in lower case, so lower-casing a name leaves them in it. */
  lemma KeywordsAreLowerCase(i: nat, k: nat)
    requires i < |Rules| && k < |Rules[i].keywords|
    ensures ToLower(Rules[i].keywords[k]) == Rules[i].keywords[k]
  {
    RulesLower0();
    RulesLower2();
    RulesLower4();
    RulesLower6();
    RulesLower8();
    RulesLower10();
    assert LowerKeywords(Rules[i]);
    ToLowerFixes(Rules[i].keywords[k]);
  }

  /** A file whose name holds a bank's keyword is attributed to that bank or to one tried before
    * it, whatever surrounds the keyword. */
  lemma KeywordDetected(before: string, i: nat, k: nat, after: string)
    requires i < |Rules| && k < |Rules[i].keywords|
    ensures var lowerName := ToLower(before + Rules[i].keywords[k] + after);
            && FirstMatch(Rules, lowerName).Some?
            && FirstMatch(Rules, lowerName).value <= i
            && DetectBank(before + Rules[i].keywords[k] + after).name == Rules[FirstMatch(Rules, lowerName).value].name
  {
    var kw := Rules[i].keywords[k];
    ToLowerAppend(before + kw, after);
    ToLowerAppend(before, kw);
    KeywordsAreLowerCase(i, k);
    var lowerName := ToLower(before + kw + after);
    var at := |ToLower(before)|;
    assert lowerName == ToLower(before) + kw + ToLower(after);
    assert lowerName[at..at + |kw|] == kw;
    assert OccursAt(lowerName, kw, at);
    assert Matches(Rules[i], lowerName);
  }

  /** The accounts of a statement draft: every parsed account relabelled with the guessed bank and
    * its style class; without parsed accounts, one empty credit card of that bank. */
  function Enrich(accounts: Option<seq<Account>>, tag: BankTag): (r: seq<Account>)
    ensures |r| > 0
    ensures forall j :: 0 <= j < |r| ==> r[j].bank == tag.name && r[j].colorClass == tag.colorClass
    ensures accounts.Some? && |accounts.value| > 0 ==>
              |r| == |accounts.value|
              && forall j :: 0 <= j < |r| ==> r[j] == accounts.value[j].(bank := tag.name, colorClass := tag.colorClass)
    ensures !(accounts.Some? && |accounts.value| > 0) ==>
              r == [Account(tag.name, CreditCard, 0.0, 0.0, None, tag.colorClass)]
  {
    if accounts.Some? && |accounts.value| > 0 then
      var xs := accounts.value;
      seq(|xs|, j requires 0 <= j < |xs| => xs[j].(bank := tag.name, colorClass := tag.colorClass))
    else [Account(tag.name, CreditCard, 0.0, 0.0, None, tag.colorClass)]
  }

  /** The colour listed for a bank name, if it is listed. */
  function BankColor(banks: seq<(string, string)>, name: string): (r: Option<string>)
    ensures r.Some? ==> exists j :: 0 <= j < |banks| && banks[j] == (name, r.value)
    ensures r.None? ==> forall j :: 0 <= j < |banks| ==> banks[j].0 != name
  {
    if |banks| == 0 then None
    else if banks[0].0 == name then Some(banks[0].1)
    else BankColor(banks[1..], name)
  }

  /** The tag of a chosen bank: its listed colour, or the grey of "other". */
  function ChosenBank(name: string): (tag: BankTag)
    ensures tag.name == name && tag.colorClass.None? && tag.color.Some?
    ensures BankColor(Banks, name).None? ==> tag.color == Some(DefaultBankColor)
  {
    BankTag(name, None, Some(BankColor(Banks, name).GetOr(DefaultBankColor)))
  }

  /** The accounts after a bank is chosen: every account moved to that bank; a draft without an
    * account list gets one empty credit card. */
  function Relabel(accounts: Option<seq<Account>>, name: string): (r: seq<Account>)
    ensures forall j :: 0 <= j < |r| ==> r[j].bank == name
    ensures accounts.Some? ==>
              |r| == |accounts.value| && forall j :: 0 <= j < |r| ==> r[j] == accounts.value[j].(bank := name)
    ensures accounts.None? ==> r == [Account(name, CreditCard, 0.0, 0.0, None, None)]
  {
    match accounts
    case Some(xs) => seq(|xs|, j requires 0 <= j < |xs| => xs[j].(bank := name))
    case None => [Account(name, CreditCard, 0.0, 0.0, None, None)]
  }

  /** `validateImportedData`: a backup must hold both an expense and an income list. */
  predicate IsBackup(doc: Backup) {
    doc.expenses.Some? && doc.incomes.Some?
  }

  /** The draft made from a statement the AI read, if the reply holds an expense list. */
  function StatementDraft(parsed: Option<Backup>, tag: BankTag): (r: Option<Draft>)
    ensures r.Some? <==> parsed.Some? && parsed.value.expenses.Some?
    ensures r.Some? ==> r.value.detectedBank == Some(tag)
                        && r.value.data == parsed.value.(accounts := Some(Enrich(parsed.value.accounts, tag)))
  {
    if parsed.Some? && parsed.value.expenses.Some? then
      Some(Draft(parsed.value.(accounts := Some(Enrich(parsed.value.accounts, tag))), Some(tag)))
    else None
  }

  /** The draft a chosen bank leaves: tagged with that bank, every account moved to it. */
  function WithBank(draft: Draft, name: string): (r: Draft)
    ensures r.detectedBank == Some(ChosenBank(name))
    ensures r.data == draft.data.(accounts := Some(Relabel(draft.data.accounts, name)))
  {
    Draft(draft.data.(accounts := Some(Relabel(draft.data.accounts, name))), Some(ChosenBank(name)))
  }

  /** A well-formed draft: it holds an expense list, and once it carries a bank every account in it
    * belongs to that bank. */
  predicate GoodDraft(d: Draft) {
    && d.data.expenses.Some?
    && (d.detectedBank.Some? ==>
          d.data.accounts.Some? && forall a :: a in d.data.accounts.value ==> a.bank == d.detectedBank.value.name)
  }

  /** A statement draft is well formed, whatever bank it was tagged with. */
  lemma StatementDraftIsGood(parsed: Option<Backup>, tag: BankTag)
    requires StatementDraft(parsed, tag).Some?
    ensures GoodDraft(StatementDraft(parsed, tag).value)
  {
    var accts := Enrich(parsed.value.accounts, tag);
    assert forall a :: a in accts ==> a.bank == tag.name;
  }

  /** A backup draft is well formed. */
  lemma BackupDraftIsGood(doc: Backup)
    requires IsBackup(doc)
    ensures GoodDraft(Draft(doc, None))
  {
  }

  /** Choosing a bank keeps a draft well formed: every account now belongs to the chosen bank. */
  lemma WithBankIsGood(draft: Draft, name: string)
    requires draft.data.expenses.Some?
    ensures GoodDraft(WithBank(draft, name))
  {
    var relabelled := Relabel(draft.data.accounts, name);
    assert forall a :: a in relabelled ==> a.bank == name;
  }

  // ---------------------------------------------------------------------------------------------
  // The wizard

  const ProviderEntry: string := "import_provider"
  const ModelEntry: string := "import_model"
  const DefaultProvider: string := "gemini"
  const DefaultModel: string := "gemini-1.5-flash"
  const PdfType: string := "application/pdf"

  const NotAPdf: string := "Lütfen geçerli bir PDF dosyası seçin."
  const InvalidBackup: string := "Dosya formatı geçersiz. Lütfen doğru yedek dosyasını yükleyin."
  const NoPdfYet: string := "Lütfen önce bir PDF yükleyin."
  const NoMeaningfulOutput: string := "AI veriden anlamlı bir çıktı üretemedi."
  const ProcessingFailed: string := "İşlem sırasında bir hata oluştu."

  /** `localStorage.getItem(entry) || fallback`. */
  function SettingOr(storage: map<string, string>, entry: string, fallback: string): (r: string)
    ensures entry in storage && storage[entry] != "" ==> r == storage[entry]
    ensures !(entry in storage && storage[entry] != "") ==> r == fallback
  {
    if entry in storage && storage[entry] != "" then storage[entry] else fallback
  }

  /** The message shown for a failed step: the error's own message, or the generic one when it
    * has none (`err.message || ...`). */
  function FailureText(message: string): (r: string)
    ensures r != ""
    ensures message != "" ==> r == message
  {
    if message != "" then message else ProcessingFailed
  }

  /** Where processing a statement ends: a failure with its message, or a draft to review. */
  datatype Processed = Failed(message: string) | Drafted(draft: Draft)

  /**
   * The end of `handlePdfProcess` once a file and a key are there, for a file guessed to be the
   * bank `tag`: a failed extraction, a provider that cannot read statements, or a failed request
   * fail with their message (or the generic one); a reply with an expense list becomes a draft
   * tagged with the bank; any other reply fails with its own message.
   */
  function ProcessOutcome(outcome: PdfOutcome, provider: string, tag: BankTag): (r: Processed)
    ensures r.Failed? ==> r.message != ""
    ensures r.Drafted? ==> GoodDraft(r.draft) && r.draft.detectedBank == Some(tag)
    ensures r.Drafted? <==> && outcome.Extracted? && CanReadStatements(provider) && outcome.reply.AiReturned?
                            && StatementDraft(outcome.reply.parsed, tag).Some?
    ensures r.Drafted? ==> Some(r.draft) == StatementDraft(outcome.reply.parsed, tag)
    ensures outcome.ExtractFailed? ==> r == Failed(FailureText(outcome.message))
    ensures outcome.Extracted? && !CanReadStatements(provider) ==> r == Failed(UnsupportedProvider)
    ensures outcome.Extracted? && CanReadStatements(provider) && outcome.reply.AiFailed? ==>
              r == Failed(FailureText(outcome.reply.message))
    ensures outcome.Extracted? && CanReadStatements(provider) && outcome.reply.AiReturned? && r.Failed? ==>
              r.message == NoMeaningfulOutput
  {
    match outcome
    case ExtractFailed(message) => Failed(FailureText(message))
    case Extracted(_, reply) =>
      if !CanReadStatements(provider) then Failed(UnsupportedProvider)
      else
        match reply
        case AiFailed(message) => Failed(FailureText(message))
        case AiReturned(parsed) =>
          match StatementDraft(parsed, tag)
          case Some(draft) =>
            StatementDraftIsGood(parsed, tag);
            Drafted(draft)
          case None => Failed(NoMeaningfulOutput)
  }

  class Wizard {
    var mode: Mode
    var provider: string
    var model: string
    var apiKey: string
    var pdfFile: Option<File>
    var rawText: string
    var parsedData: Option<Draft>
    var selectedBank: Option<string>
    var error: string
    var loading: bool
    /** The browser storage the wizard reads its settings from and saves them to. */
    var storage: map<string, string>

    /** Every draft the wizard holds is well formed. */
    predicate Valid()
      reads this
    {
      parsedData.Some? ==> GoodDraft(parsedData.value)
    }

    /** The wizard as it opens: the saved provider and model (or the defaults) and the Gemini key,
      * whichever provider was saved. */
    constructor(storage: map<string, string>)
      ensures Valid()
      ensures mode == Select && pdfFile.None? && rawText == "" && parsedData.None? && selectedBank.None?
      ensures error == "" && !loading && this.storage == storage
      ensures provider == SettingOr(storage, ProviderEntry, DefaultProvider)
      ensures model == SettingOr(storage, ModelEntry, DefaultModel)
      ensures apiKey == GetStoredKey(storage, DefaultProvider)
    {
      mode := Select;
      provider := SettingOr(storage, ProviderEntry, DefaultProvider);
      model := SettingOr(storage, ModelEntry, DefaultModel);
      apiKey := GetStoredKey(storage, DefaultProvider);
      pdfFile := None;
      rawText := "";
      parsedData := None;
      selectedBank := None;
      error := "";
      loading := false;
      this.storage := storage;
    }

    /** `handlePdfSelect`: a PDF is kept and the error cleared; anything else only sets the error. */
    method PdfSelect(file: Option<File>)
      modifies this
      ensures file.Some? && file.value.kind == PdfType ==> pdfFile == file && error == ""
      ensures !(file.Some? && file.value.kind == PdfType) ==> pdfFile == old(pdfFile) && error == NotAPdf
      ensures mode == old(mode) && parsedData == old(parsedData) && rawText == old(rawText)
      ensures provider == old(provider) && model == old(model) && apiKey == old(apiKey)
      ensures selectedBank == old(selectedBank) && loading == old(loading) && storage == old(storage)
    {
      if file.Some? && file.value.kind == PdfType {
        pdfFile := file;
        error := "";
      } else {
        error := NotAPdf;
      }
    }

    /** `setProvider`: the provider is chosen and saved, and that provider's stored key is loaded. */
    method SetProvider(newProvider: string)
      modifies this
      ensures provider == newProvider && storage == old(storage)[ProviderEntry := newProvider]
      ensures apiKey == GetStoredKey(storage, newProvider)
      ensures mode == old(mode) && parsedData == old(parsedData) && pdfFile == old(pdfFile)
      ensures model == old(model) && error == old(error) && rawText == old(rawText)
      ensures selectedBank == old(selectedBank) && loading == old(loading)
    {
      provider := newProvider;
      storage := storage[ProviderEntry := newProvider];
      apiKey := GetStoredKey(storage, newProvider);
    }

    /** `setModel`: the model is chosen and saved. */
    method SetModel(newModel: string)
      modifies this
      ensures model == newModel && storage == old(storage)[ModelEntry := newModel]
      ensures mode == old(mode) && parsedData == old(parsedData) && pdfFile == old(pdfFile)
      ensures provider == old(provider) && apiKey == old(apiKey) && error == old(error)
      ensures rawText == old(rawText) && selectedBank == old(selectedBank) && loading == old(loading)
    {
      model := newModel;
      storage := storage[ModelEntry := newModel];
    }

    method SetApiKey(key: string)
      modifies this
      ensures apiKey == key
      ensures mode == old(mode) && parsedData == old(parsedData) && pdfFile == old(pdfFile)
      ensures provider == old(provider) && model == old(model) && error == old(error)
      ensures rawText == old(rawText) && selectedBank == old(selectedBank) && loading == old(loading)
      ensures storage == old(storage)
    {
      apiKey := key;
    }

    method SetMode(m: Mode)
      modifies this
      ensures mode == m
      ensures parsedData == old(parsedData) && pdfFile == old(pdfFile) && apiKey == old(apiKey)
      ensures provider == old(provider) && model == old(model) && error == old(error)
      ensures rawText == old(rawText) && selectedBank == old(selectedBank) && loading == old(loading)
      ensures storage == old(storage)
    {
      mode := m;
    }

    /**
     * `handleJsonSelect` with what reading the chosen file gave: no file changes nothing; a valid
     * backup becomes the draft to confirm; an invalid one, or a read error, shows the error.
     */
    method JsonSelect(file: Option<File>, read: JsonRead)
      requires Valid()
      modifies this
      ensures Valid()
      ensures file.None? ==> mode == old(mode) && parsedData == old(parsedData) && error == old(error)
                             && loading == old(loading)
      ensures file.Some? ==> !loading
      ensures file.Some? && read.Read? && IsBackup(read.doc) ==>
                parsedData == Some(Draft(read.doc, None)) && mode == Confirm && error == old(error)
      ensures file.Some? && read.Read? && !IsBackup(read.doc) ==>
                parsedData == old(parsedData) && mode == Error && error == InvalidBackup
      ensures file.Some? && read.ReadFailed? ==>
                parsedData == old(parsedData) && mode == Error && error == read.message
      ensures pdfFile == old(pdfFile) && rawText == old(rawText) && selectedBank == old(selectedBank)
      ensures provider == old(provider) && model == old(model) && apiKey == old(apiKey)
      ensures storage == old(storage)
    {
      if file.None? {
        return;
      }
      loading := true;
      match read {
        case ReadFailed(message) =>
          error := message;
          mode := Error;
        case Read(doc) =>
          if IsBackup(doc) {
            parsedData := Some(Draft(doc, None));
            mode := Confirm;
          } else {
            error := InvalidBackup;
            mode := Error;
          }
      }
      loading := false;
    }

    /**
     * `handlePdfProcess` with what extracting the text and asking the AI gave. Without a PDF or a
     * key only the error is set. Otherwise the statement is processed for the bank guessed from the
     * file name.
     */
    method PdfProcess(outcome: PdfOutcome)
      requires Valid()
      modifies this
      ensures Valid()
      ensures old(pdfFile).None? ==>
                error == NoPdfYet && mode == old(mode) && parsedData == old(parsedData)
                && rawText == old(rawText) && loading == old(loading)
      ensures old(pdfFile).Some? && old(apiKey) == "" ==>
                error == ToUpper(provider) + " API Key gerekli." && mode == old(mode)
                && parsedData == old(parsedData) && rawText == old(rawText) && loading == old(loading)
      ensures old(pdfFile).Some? && old(apiKey) != "" ==>
                Processed(old(parsedData), old(rawText), outcome, DetectBank(old(pdfFile).value.name))
      ensures pdfFile == old(pdfFile) && selectedBank == old(selectedBank)
      ensures provider == old(provider) && model == old(model) && apiKey == old(apiKey)
      ensures storage == old(storage)
    {
      if pdfFile.None? {
        error := NoPdfYet;
        return;
      }
      if apiKey == "" {
        error := ToUpper(provider) + " API Key gerekli.";
        return;
      }
      ProcessStatement(outcome, DetectBank(pdfFile.value.name));
    }

    /** The state once a statement has been processed for the bank `tag`, from the draft and text
      * held before. */
    predicate Processed(draftBefore: Option<Draft>, textBefore: string, outcome: PdfOutcome, tag: BankTag)
      reads this
    {
      var r := ProcessOutcome(outcome, provider, tag);
      && !loading
      && rawText == (if outcome.Extracted? then outcome.text else textBefore)
      && mode == (if r.Drafted? then Review else Error)
      && error == (if r.Drafted? then "" else r.message)
      && parsedData == (if r.Drafted? then Some(r.draft) else draftBefore)
    }

    /**
     * The `try` block of `handlePdfProcess` for a file guessed to be the bank `tag`: the extracted
     * text is kept, and a reply holding an expense list becomes the draft to review; a failure at
     * any step shows its message.
     */
    method ProcessStatement(outcome: PdfOutcome, tag: BankTag)
      requires Valid()
      modifies this
      ensures Valid()
      ensures Processed(old(parsedData), old(rawText), outcome, tag)
      ensures pdfFile == old(pdfFile) && selectedBank == old(selectedBank)
      ensures provider == old(provider) && model == old(model) && apiKey == old(apiKey)
      ensures storage == old(storage)
    {
      var r := ProcessOutcome(outcome, provider, tag);
      loading := true;
      error := "";
      mode := Processing;
      if outcome.Extracted? {
        rawText := outcome.text;
      }
      if r.Failed? {
        error := r.message;
        mode := Error;
      } else {
        parsedData := Some(r.draft);
        mode := Review;
      }
      loading := false;
    }

    /** `handleGoToBankSelect`: with a draft, its bank (if any) is preselected and the bank list
      * shown; without one nothing changes. */
    method GoToBankSelect()
      modifies this
      ensures old(parsedData).None? ==> mode == old(mode) && selectedBank == old(selectedBank)
      ensures old(parsedData).Some? ==> mode == BankSelect
      ensures old(parsedData).Some? && old(parsedData).value.detectedBank.Some? ==>
                selectedBank == Some(old(parsedData).value.detectedBank.value.name)
      ensures old(parsedData).Some? && old(parsedData).value.detectedBank.None? ==> selectedBank == old(selectedBank)
      ensures parsedData == old(parsedData) && pdfFile == old(pdfFile) && apiKey == old(apiKey)
      ensures provider == old(provider) && model == old(model) && error == old(error)
      ensures rawText == old(rawText) && loading == old(loading) && storage == old(storage)
    {
      if parsedData.Some? {
        if parsedData.value.detectedBank.Some? {
          selectedBank := Some(parsedData.value.detectedBank.value.name);
        }
        mode := BankSelect;
      }
    }

    /** `handleBankSelected(bankName)`: the draft is moved to the chosen bank and shown for
      * confirmation. */
    method BankSelected(bankName: string)
      requires Valid() && parsedData.Some?
      modifies this
      ensures Valid()
      ensures selectedBank == Some(bankName) && mode == Confirm
      ensures parsedData == Some(WithBank(old(parsedData).value, bankName))
      ensures pdfFile == old(pdfFile) && apiKey == old(apiKey) && provider == old(provider)
      ensures model == old(model) && error == old(error) && rawText == old(rawText)
      ensures loading == old(loading) && storage == old(storage)
    {
      selectedBank := Some(bankName);
      WithBankIsGood(parsedData.value, bankName);
      parsedData := Some(WithBank(parsedData.value, bankName));
      mode := Confirm;
    }

    /** `handleFinalImport(importMode)`: the draft's data and the mode are handed to the application
      * (`onImportSuccess`) and the wizard reports success; without a draft nothing happens. */
    method FinalImport(importMode: string) returns (handed: Option<(Backup, string)>)
      requires Valid()
      modifies this
      ensures Valid()
      ensures old(parsedData).None? ==> handed.None? && mode == old(mode)
      ensures old(parsedData).Some? ==> handed == Some((old(parsedData).value.data, importMode)) && mode == Success
      ensures handed.Some? ==> handed.value.0.expenses.Some?
      ensures parsedData == old(parsedData) && pdfFile == old(pdfFile) && apiKey == old(apiKey)
      ensures provider == old(provider) && model == old(model) && error == old(error)
      ensures rawText == old(rawText) && selectedBank == old(selectedBank) && loading == old(loading)
      ensures storage == old(storage)
    {
      handed := None;
      if parsedData.Some? {
        handed := Some((parsedData.value.data, importMode));
        mode := Success;
      }
    }
  }
}
